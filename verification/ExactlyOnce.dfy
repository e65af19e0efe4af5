/**
 * Sequence numbers and metadata publication, over every run of the device: successful jobs
 * are numbered 1, 2, 3, ... across all contexts, each is published at most once, and exactly
 * the completed CAPTURE buffers that have not left the driver still owe an entry.
 */
module ExactlyOnce {
  import opened Base
  import opened M2m
  import Cv
  import Meta
  import P = Producers

  // ---- counting ----

  function Count(s: seq<nat>, k: nat): nat {
    if s == [] then 0 else Count(s[..|s| - 1], k) + if s[|s| - 1] == k then 1 else 0
  }

  lemma {:induction false} CountConcat(a: seq<nat>, b: seq<nat>, k: nat)
    ensures Count(a + b, k) == Count(a, k) + Count(b, k)
  {
    if b == [] {
      assert a + b == a;
    } else {
      assert (a + b)[..|a + b| - 1] == a + b[..|b| - 1];
      CountConcat(a, b[..|b| - 1], k);
    }
  }

  lemma CountOne(x: nat, k: nat)
    ensures Count([x], k) == if x == k then 1 else 0
  {
    assert [x][..0] == [];
  }

  /** How many buffers have entry number `k` pending. */
  function Pending(bufs: seq<CapBuf>, k: nat): nat {
    if bufs == [] then 0
    else Pending(bufs[..|bufs| - 1], k) + if bufs[|bufs| - 1].pending.seqNo == k then 1 else 0
  }

  lemma {:induction false} PendingUpdate(bufs: seq<CapBuf>, i: nat, b: CapBuf, k: nat)
    requires i < |bufs|
    ensures Pending(bufs[i := b], k) + (if bufs[i].pending.seqNo == k then 1 else 0)
         == Pending(bufs, k) + (if b.pending.seqNo == k then 1 else 0)
  {
    var n := |bufs| - 1;
    if i < n {
      assert bufs[i := b][..n] == bufs[..n][i := b];
      PendingUpdate(bufs[..n], i, b, k);
    } else {
      assert bufs[i := b][..n] == bufs[..n];
    }
  }

  lemma {:induction false} PendingSame(bufs: seq<CapBuf>, bufs': seq<CapBuf>, k: nat)
    requires |bufs| == |bufs'| && forall i :: 0 <= i < |bufs| ==> bufs'[i].pending.seqNo == bufs[i].pending.seqNo
    ensures Pending(bufs', k) == Pending(bufs, k)
  {
    if bufs != [] { PendingSame(bufs[..|bufs| - 1], bufs'[..|bufs| - 1], k); }
  }

  lemma {:induction false} PendingZero(bufs: seq<CapBuf>, k: nat)
    requires k > 0 && forall i :: 0 <= i < |bufs| ==> bufs[i].pending.seqNo == 0
    ensures Pending(bufs, k) == 0
  {
    if bufs != [] { PendingZero(bufs[..|bufs| - 1], k); }
  }

  /** Finishing a buffer moves its number from pending to published. */
  lemma FinishMoves(bufs: seq<CapBuf>, i: nat, now: nat, k: nat)
    requires i < |bufs| && k > 0
    ensures var (bufs', pubs) := BufFinish(bufs, i, now);
      Pending(bufs', k) + Count(Seqs(pubs), k) == Pending(bufs, k)
  {
    var (bufs', pubs) := BufFinish(bufs, i, now);
    if bufs[i].pending.seqNo != 0 {
      PendingUpdate(bufs, i, bufs'[i], k);
      assert Seqs(pubs) == [bufs[i].pending.seqNo];
      CountOne(bufs[i].pending.seqNo, k);
    }
  }

  lemma SeqsConcat(a: seq<Meta.Entry>, b: seq<Meta.Entry>)
    ensures Seqs(a + b) == Seqs(a) + Seqs(b)
  {
  }

  /** Numbers pending on buffers and numbers already published, together. */
  function Total(r: (seq<CapBuf>, seq<Meta.Entry>), k: nat): nat { Pending(r.0, k) + Count(Seqs(r.1), k) }

  lemma TotalUnpublished(bufs: seq<CapBuf>, k: nat)
    ensures Total((bufs, []), k) == Pending(bufs, k)
  {
    assert Seqs([]) == [];
  }

  lemma {:induction false} FinishFirstMoves(bufs: seq<CapBuf>, m: nat, now: nat, k: nat)
    requires m <= |bufs| && k > 0
    ensures Total(FinishFirst(bufs, m, now), k) == Pending(bufs, k)
  {
    if m == 0 {
      TotalUnpublished(bufs, k);
    } else {
      FinishFirstMoves(bufs, m - 1, now, k);
      FinishNext(FinishFirst(bufs, m - 1, now), m - 1, now, k);
    }
  }

  lemma FinishNext(r: (seq<CapBuf>, seq<Meta.Entry>), i: nat, now: nat, k: nat)
    requires i < |r.0| && k > 0
    ensures var f := BufFinish(r.0, i, now); Total((f.0, r.1 + f.1), k) == Total(r, k)
  {
    FinishMoves(r.0, i, now, k);
    var more := BufFinish(r.0, i, now).1;
    SeqsConcat(r.1, more);
    CountConcat(Seqs(r.1), Seqs(more), k);
  }

  lemma {:induction false} FinishFirstClears(bufs: seq<CapBuf>, m: nat, now: nat)
    requires m <= |bufs|
    ensures forall i :: 0 <= i < m ==> FinishFirst(bufs, m, now).0[i].pending.seqNo == 0
  {
    if m > 0 { FinishFirstClears(bufs, m - 1, now); }
  }

  // ---- one context ----

  /** `meta_pending.seq` is non-zero exactly for buffers completed successfully and not yet finished. */
  ghost predicate PendingExact(bufs: seq<CapBuf>) {
    forall i :: 0 <= i < |bufs| ==> (bufs[i].pending.seqNo != 0 <==> bufs[i].state == DONE)
  }

  /** Every number a context took is published or pending, exactly once. */
  ghost predicate Accounted(c: Ctx) {
    forall k :: k > 0 ==> Count(c.published, k) + Pending(c.capBufs, k) == Count(c.numbers, k)
  }

  /** A list holds distinct buffers of one kind of state. */
  ghost predicate Listed(bufs: seq<CapBuf>, list: seq<nat>, states: set<BufState>) {
    Distinct(list) && forall k :: 0 <= k < |list| ==> list[k] < |bufs| && bufs[list[k]].state in states
  }

  ghost predicate ListsOk(bufs: seq<CapBuf>, q: Queue) {
    && Listed(bufs, q.held, {QUEUED}) && Listed(bufs, q.ready, {ACTIVE}) && Listed(bufs, q.done, {DONE, ERROR})
    && (q.on ==> q.held == []) && (!q.on ==> q.ready == [] && q.done == [])
  }

  /** While stream-offs met their buffers in index order, a context publishes in the order it numbered. */
  ghost predicate InOrder(c: Ctx) {
    c.fifo ==> c.published + Owed(c.capBufs, c.capQ.done) == c.numbers
  }

  /** Every completed buffer is on the done list. */
  ghost predicate DoneListed(bufs: seq<CapBuf>, done: seq<nat>) {
    forall i :: 0 <= i < |bufs| && bufs[i].state == DONE ==> i in done
  }

  ghost predicate CtxOk(c: Ctx) {
    && PendingExact(c.capBufs) && Accounted(c) && InOrder(c)
    && ListsOk(c.capBufs, c.capQ) && DoneListed(c.capBufs, c.capQ.done)
  }

  /** What a step does to the history of numbers: at most one is taken, the next one. */
  ghost predicate HistoryOk(c: Ctx, n: nat, r: Result) {
    && r.ctx.published == c.published + Seqs(r.pubs)
    && (|| (r.sequence == n && r.ctx.numbers == c.numbers)
        || (r.sequence == n + 1 && r.ctx.numbers == c.numbers + [n + 1]))
  }

  /** A step that leaves the CAPTURE side alone. */
  ghost predicate SameCapture(c: Ctx, c': Ctx) {
    && c'.capQ == c.capQ && c'.capBufs == c.capBufs
    && c'.numbers == c.numbers && c'.published == c.published && c'.fifo == c.fifo
  }

  lemma {:induction false} HeldUntouched(c: Ctx, list: seq<nat>, n: nat, mapped: bool, now: nat)
    ensures var r := QueueHeld(c, list, n, mapped, now); SameCapture(c, r.ctx) && r.sequence == n && r.pubs == []
    decreases |list|
  {
    if list != [] { HeldUntouched(c, list[..|list| - 1], n, mapped, now); }
  }

  lemma OwedSame(bufs: seq<CapBuf>, bufs': seq<CapBuf>, done: seq<nat>)
    requires |bufs'| == |bufs|
    requires forall k :: 0 <= k < |done| && done[k] < |bufs| ==>
      (bufs'[done[k]].state == DONE <==> bufs[done[k]].state == DONE)
      && bufs'[done[k]].pending.seqNo == bufs[done[k]].pending.seqNo
    ensures Owed(bufs', done) == Owed(bufs, done)
    decreases |done|
  {
    if done != [] { OwedSame(bufs, bufs', done[1..]); }
  }

  lemma {:induction false} OwedConcat(bufs: seq<CapBuf>, a: seq<nat>, b: seq<nat>)
    ensures Owed(bufs, a + b) == Owed(bufs, a) + Owed(bufs, b)
    decreases |a|
  {
    if a == [] {
      assert a + b == b;
    } else {
      assert (a + b)[1..] == a[1..] + b;
      OwedConcat(bufs, a[1..], b);
    }
  }

  /** Requeueing, activating and the like: states change, nothing pending does. */
  lemma StatesOnly(c: Ctx, c': Ctx)
    requires CtxOk(c) && |c'.capBufs| == |c.capBufs|
    requires c'.numbers == c.numbers && c'.published == c.published && c'.fifo == c.fifo && c'.capQ.done == c.capQ.done
    requires forall i :: 0 <= i < |c.capBufs| ==>
      && c'.capBufs[i].pending == c.capBufs[i].pending
      && (c'.capBufs[i].state == DONE <==> c.capBufs[i].state == DONE)
    ensures PendingExact(c'.capBufs) && Accounted(c') && InOrder(c')
  {
    forall k | k > 0
      ensures Pending(c'.capBufs, k) == Pending(c.capBufs, k)
    {
      PendingSame(c.capBufs, c'.capBufs, k);
    }
    OwedSame(c.capBufs, c'.capBufs, c.capQ.done);
  }

  // ---- lists under a change of one buffer ----

  lemma ListKeep(bufs: seq<CapBuf>, list: seq<nat>, states: set<BufState>, i: nat, b: CapBuf)
    requires i < |bufs| && Listed(bufs, list, states) && bufs[i].state !in states
    ensures Listed(bufs[i := b], list, states)
  {
  }

  lemma ListAdd(bufs: seq<CapBuf>, list: seq<nat>, states: set<BufState>, i: nat, b: CapBuf)
    requires i < |bufs| && Listed(bufs, list, states) && bufs[i].state !in states && b.state in states
    ensures Listed(bufs[i := b], list + [i], states)
  {
  }

  lemma ListPop(bufs: seq<CapBuf>, list: seq<nat>, states: set<BufState>, b: CapBuf)
    requires list != [] && Listed(bufs, list, states)
    ensures Listed(bufs[list[0] := b], list[1..], states)
  {
  }

  lemma ListsAfterQueue(bufs: seq<CapBuf>, q: Queue, i: nat, b: CapBuf)
    requires ListsOk(bufs, q) && i < |bufs| && InUser(bufs[i].state)
    ensures ListsOk(bufs[i := b], q)
    ensures b.state == QUEUED && !q.on ==> ListsOk(bufs[i := b], q.(held := q.held + [i]))
    ensures b.state == ACTIVE && q.on ==> ListsOk(bufs[i := b], q.(ready := q.ready + [i]))
  {
    ListKeep(bufs, q.held, {QUEUED}, i, b);
    ListKeep(bufs, q.ready, {ACTIVE}, i, b);
    ListKeep(bufs, q.done, {DONE, ERROR}, i, b);
    if b.state == QUEUED { ListAdd(bufs, q.held, {QUEUED}, i, b); }
    if b.state == ACTIVE { ListAdd(bufs, q.ready, {ACTIVE}, i, b); }
  }

  lemma ListsAfterRun(bufs: seq<CapBuf>, q: Queue, b: CapBuf)
    requires ListsOk(bufs, q) && q.on && q.ready != [] && (b.state == DONE || b.state == ERROR)
    ensures q.ready[0] < |bufs| && bufs[q.ready[0]].state == ACTIVE && q.ready[0] !in q.done
    ensures ListsOk(bufs[q.ready[0] := b], q.(ready := q.ready[1..], done := q.done + [q.ready[0]]))
    ensures DoneListed(bufs, q.done) ==> DoneListed(bufs[q.ready[0] := b], q.done + [q.ready[0]])
  {
    ListPop(bufs, q.ready, {ACTIVE}, b);
    ListAdd(bufs, q.done, {DONE, ERROR}, q.ready[0], b);
  }

  lemma ListsAfterDq(bufs: seq<CapBuf>, q: Queue, b: CapBuf)
    requires ListsOk(bufs, q) && q.done != []
    ensures q.done[0] < |bufs| && q.done[0] !in q.done[1..]
    ensures ListsOk(bufs[q.done[0] := b], q.(done := q.done[1..]))
  {
    ListPop(bufs, q.done, {DONE, ERROR}, b);
    ListKeep(bufs, q.ready, {ACTIVE}, q.done[0], b);
    ListKeep(bufs, q.held, {QUEUED}, q.done[0], b);
  }

  // ---- the steps that touch CAPTURE ----

  lemma QueueCapKeeps(c: Ctx, n: nat, i: nat, plane: Option<Plane>)
    requires CtxOk(c)
    ensures CtxOk(QBufCap(c, n, i, plane).ctx)
  {
    var c' := QBufCap(c, n, i, plane).ctx;
    StatesOnly(c, c');
    if i < |c.capBufs| && InUser(c.capBufs[i].state) {
      ListsAfterQueue(c.capBufs, c.capQ, i, c'.capBufs[i]);
    }
  }

  lemma PrepareCapKeeps(c: Ctx, n: nat, i: nat, plane: Option<Plane>)
    requires CtxOk(c)
    ensures CtxOk(PrepareCap(c, n, i, plane).ctx)
  {
    var c' := PrepareCap(c, n, i, plane).ctx;
    StatesOnly(c, c');
    if i < |c.capBufs| && c.capBufs[i].state == DEQUEUED {
      ListsAfterQueue(c.capBufs, c.capQ, i, c'.capBufs[i]);
    }
  }

  lemma {:induction false} PendingFresh(bufs: seq<CapBuf>, more: seq<CapBuf>, k: nat)
    requires k > 0 && forall i :: 0 <= i < |more| ==> more[i].pending.seqNo == 0
    ensures Pending(bufs + more, k) == Pending(bufs, k)
    decreases |more|
  {
    var all, m := bufs + more, |more| - 1;
    if more == [] {
      assert all == bufs;
    } else {
      assert all[..|all| - 1] == bufs + more[..m];
      PendingFresh(bufs, more[..m], k);
    }
  }

  lemma {:induction false} OwedFresh(bufs: seq<CapBuf>, more: seq<CapBuf>, done: seq<nat>)
    requires forall k :: 0 <= k < |done| ==> done[k] < |bufs|
    ensures Owed(bufs + more, done) == Owed(bufs, done)
    decreases |done|
  {
    if done != [] { OwedFresh(bufs, more, done[1..]); }
  }

  /** Further buffers that nobody has queued yet. */
  lemma CreateCapKeeps(c: Ctx, n: nat, planes: seq<Plane>)
    requires CtxOk(c)
    ensures CtxOk(CreateCap(c, n, planes).ctx)
  {
    var c' := CreateCap(c, n, planes).ctx;
    if c'.capBufs != c.capBufs {
      var more := FreshCap(AtLeastTwo(planes));
      forall k | k > 0 ensures Pending(c'.capBufs, k) == Pending(c.capBufs, k) { PendingFresh(c.capBufs, more, k); }
      OwedFresh(c.capBufs, more, c.capQ.done);
    }
  }

  lemma ActivatedLists(bufs: seq<CapBuf>, q: Queue)
    requires ListsOk(bufs, q) && !q.on
    ensures ListsOk(Activated(bufs), Queue([], q.ready + q.held, q.done, true))
  {
    assert q.ready + q.held == q.held;
  }

  lemma StreamOnCapKeeps(c: Ctx, n: nat)
    requires CtxOk(c)
    ensures CtxOk(StreamOnCap(c, n).ctx)
  {
    StatesOnly(c, StreamOnCap(c, n).ctx);
    if !c.capQ.on { ActivatedLists(c.capBufs, c.capQ); }
  }

  /** The head of the done list leaves: its number moves from owed to published. */
  lemma DqInOrder(c: Ctx, c': Ctx)
    requires c.capQ.done != [] && InOrder(c) && c'.fifo == c.fifo && c'.numbers == c.numbers
    requires c.capQ.done[0] < |c.capBufs| == |c'.capBufs| && c.capQ.done[0] !in c.capQ.done[1..]
    requires c'.capQ.done == c.capQ.done[1..]
    requires forall k :: 0 <= k < |c.capBufs| && k != c.capQ.done[0] ==> c'.capBufs[k] == c.capBufs[k]
    requires var b := c.capBufs[c.capQ.done[0]];
      c'.published == c.published + if b.state == DONE then [b.pending.seqNo] else []
    ensures InOrder(c')
  {
    OwedSame(c.capBufs, c'.capBufs, c'.capQ.done);
  }

  lemma DqBufCapKeeps(c: Ctx, n: nat, now: nat)
    requires CtxOk(c)
    ensures CtxOk(DqBufCap(c, n, now).ctx)
  {
    if c.capQ.done != [] {
      var i, c' := c.capQ.done[0], DqBufCap(c, n, now).ctx;
      var (bufs, pubs) := BufFinish(c.capBufs, i, now);
      assert c'.capBufs == c.capBufs[i := c'.capBufs[i]];
      ListsAfterDq(c.capBufs, c.capQ, c'.capBufs[i]);
      forall k | k > 0
        ensures Count(c'.published, k) + Pending(c'.capBufs, k) == Count(c.numbers, k)
      {
        FinishMoves(c.capBufs, i, now, k);
        PendingSame(bufs, c'.capBufs, k);
        CountConcat(c.published, Seqs(pubs), k);
      }
      assert Seqs(pubs) == if c.capBufs[i].state == DONE then [c.capBufs[i].pending.seqNo] else [];
      DqInOrder(c, c');
    }
  }

  lemma StreamOffCapKeeps(c: Ctx, n: nat, now: nat)
    requires CtxOk(c)
    ensures CtxOk(StreamOffCap(c, n, now).ctx)
  {
    var c' := StreamOffCap(c, n, now).ctx;
    var (bufs, pubs) := FinishFirst(c.capBufs, |c.capBufs|, now);
    FinishFirstClears(c.capBufs, |c.capBufs|, now);
    forall k | k > 0
      ensures Count(c'.published, k) + Pending(c'.capBufs, k) == Count(c.numbers, k)
    {
      FinishFirstMoves(c.capBufs, |c.capBufs|, now, k);
      PendingSame(bufs, c'.capBufs, k);
      CountConcat(c.published, Seqs(pubs), k);
    }
    StreamOffInOrder(c, n, now);
  }

  lemma StreamOffInOrder(c: Ctx, n: nat, now: nat)
    requires CtxOk(c)
    ensures InOrder(StreamOffCap(c, n, now).ctx)
  {
    FinishIsIndexOrder(c.capBufs, |c.capBufs|, now);
    if DoneByIndex(c.capBufs, c.capQ.done) { IndexOrderOwes(c.capBufs, c.capQ.done); }
  }

  lemma ReqBufsCapKeeps(c: Ctx, n: nat, planes: seq<Plane>)
    requires CtxOk(c)
    ensures CtxOk(ReqBufsCap(c, n, planes).ctx)
  {
    if !c.capQ.on {
      var c' := ReqBufsCap(c, n, planes).ctx;
      forall k | k > 0
        ensures Pending(c'.capBufs, k) == Pending(c.capBufs, k) == 0
      {
        PendingZero(c.capBufs, k);
        PendingZero(c'.capBufs, k);
      }
    }
  }

  /** A job adds its CAPTURE buffer to the done list, and its number to what is owed. */
  lemma RunInOrder(c: Ctx, c': Ctx, d: nat)
    requires InOrder(c) && c'.fifo == c.fifo && c'.published == c.published
    requires d < |c.capBufs| == |c'.capBufs| && d !in c.capQ.done && c'.capQ.done == c.capQ.done + [d]
    requires forall k :: 0 <= k < |c.capBufs| && k != d ==> c'.capBufs[k] == c.capBufs[k]
    requires c'.numbers == c.numbers + if c'.capBufs[d].state == DONE then [c'.capBufs[d].pending.seqNo] else []
    ensures InOrder(c')
  {
    OwedSame(c.capBufs, c'.capBufs, c.capQ.done);
    OwedConcat(c'.capBufs, c.capQ.done, [d]);
  }

  lemma FailedJobKeeps(c: Ctx, mapped: bool, now: nat, cpu: nat)
    requires CtxOk(c) && CanRun(c)
    ensures CtxOk(FailedJob(c, mapped, now, cpu))
  {
    var c', d := FailedJob(c, mapped, now, cpu), c.capQ.ready[0];
    ListsAfterRun(c.capBufs, c.capQ, c'.capBufs[d]);
    forall k | k > 0
      ensures Pending(c'.capBufs, k) == Pending(c.capBufs, k)
    {
      PendingSame(c.capBufs, c'.capBufs, k);
    }
    RunInOrder(c, c', d);
  }

  lemma RunAccount(c: Ctx, c': Ctx, d: nat, m: nat)
    requires Accounted(c) && d < |c.capBufs| && c.capBufs[d].pending.seqNo == 0 && c'.published == c.published
    requires |c'.capBufs| == |c.capBufs| && c'.capBufs == c.capBufs[d := c'.capBufs[d]]
    requires c'.capBufs[d].pending.seqNo == m
    requires c'.numbers == c.numbers + [m]
    ensures Accounted(c')
  {
    forall k | k > 0
      ensures Count(c'.published, k) + Pending(c'.capBufs, k) == Count(c'.numbers, k)
    {
      PendingUpdate(c.capBufs, d, c'.capBufs[d], k);
      assert c'.numbers[..|c.numbers|] == c.numbers;
    }
  }

  lemma RunKeeps(c: Ctx, n: nat, mapped: bool, now: nat, cpu: nat)
    requires CtxOk(c) && CanRun(c)
    ensures CtxOk(DeviceRun(c, n, mapped, now, cpu).ctx)
  {
    var r := DeviceRun(c, n, mapped, now, cpu);
    if r.sequence == n {
      FailedJobKeeps(c, mapped, now, cpu);
    } else {
      var c', d := r.ctx, c.capQ.ready[0];
      assert c'.capBufs == c.capBufs[d := c'.capBufs[d]];
      ListsAfterRun(c.capBufs, c.capQ, c'.capBufs[d]);
      RunAccount(c, c', d, n + 1);
      RunInOrder(c, c', d);
    }
  }

  /** Actions on the OUTPUT side, formats, controls and the source. */
  predicate LeavesCapture(a: Action) {
    || a.ActSetFmt? || a.ActSetCtl? || ((a.ActReqBufs? || a.ActCreateBufs? || a.ActPrepare?) && a.out)
    || a.ActQBufOut? || a.ActStreamOnOut? || a.ActStreamOffOut? || a.ActDqBufOut? || a.ActSetBackend?
  }

  lemma CaptureLeft(c: Ctx, n: nat, now: nat, a: Action)
    requires LeavesCapture(a)
    ensures var r := CtxStep(c, n, now, a); SameCapture(c, r.ctx) && r.sequence == n && r.pubs == []
  {
    match a
    case ActStreamOnOut(params, mapped) => HeldUntouched(c, c.outQ.held, n, mapped, now);
    case ActQBufOut(i, plane, mapped) => QBufOutLeaves(c, n, i, plane, mapped, now);
    case _ =>
  }

  lemma QBufOutLeaves(c: Ctx, n: nat, i: nat, plane: Option<Plane>, mapped: bool, now: nat)
    ensures var r := QBufOut(c, n, i, plane, mapped, now); SameCapture(c, r.ctx) && r.sequence == n && r.pubs == []
  {
  }

  lemma SameCaptureOk(c: Ctx, c': Ctx)
    requires CtxOk(c) && SameCapture(c, c')
    ensures CtxOk(c')
  {
  }

  lemma StepHistory(c: Ctx, n: nat, now: nat, a: Action)
    ensures HistoryOk(c, n, CtxStep(c, n, now, a))
  {
    if LeavesCapture(a) {
      CaptureLeft(c, n, now, a);
      assert Seqs([]) == [];
    }
  }

  /** Every step of a context keeps its invariant. */
  lemma CtxStepKeeps(c: Ctx, n: nat, now: nat, a: Action)
    requires CtxOk(c)
    ensures CtxOk(CtxStep(c, n, now, a).ctx)
  {
    if LeavesCapture(a) {
      CaptureLeft(c, n, now, a);
      SameCaptureOk(c, CtxStep(c, n, now, a).ctx);
    } else {
      match a
      case ActQBufCap(i, plane) => QueueCapKeeps(c, n, i, plane);
      case ActStreamOnCap => StreamOnCapKeeps(c, n);
      case ActStreamOffCap => StreamOffCapKeeps(c, n, now);
      case ActDqBufCap => DqBufCapKeeps(c, n, now);
      case ActReqBufs(out, memory, planes) => ReqBufsCapKeeps(c, n, planes);
      case ActCreateBufs(out, memory, planes) => CreateCapKeeps(c, n, planes);
      case ActPrepare(out, i, plane) => PrepareCapKeeps(c, n, i, plane);
      case ActRun(mapped, cpu) => if CanRun(c) { RunKeeps(c, n, mapped, now, cpu); }
    }
  }

  // ---- the device ----

  /** The numbers context `f` took, in order. */
  function NumbersOf(owner: seq<nat>, f: nat): seq<nat> {
    if owner == [] then []
    else NumbersOf(owner[..|owner| - 1], f) + if owner[|owner| - 1] == f then [|owner|] else []
  }

  /** The numbers context `f` published, in order. */
  function PublishedBy(log: seq<(nat, Meta.Entry)>, f: nat): seq<nat> {
    if log == [] then []
    else PublishedBy(log[..|log| - 1], f) + if log[|log| - 1].0 == f then [log[|log| - 1].1.seqNo] else []
  }

  lemma {:induction false} PublishedTagged(log: seq<(nat, Meta.Entry)>, g: nat, es: seq<Meta.Entry>, f: nat)
    ensures PublishedBy(log + Tagged(g, es), f) == PublishedBy(log, f) + if f == g then Seqs(es) else []
  {
    var all := log + Tagged(g, es);
    if es == [] {
      assert all == log;
    } else {
      var m := |es| - 1;
      PublishedTagged(log, g, es[..m], f);
      assert all[..|all| - 1] == log + Tagged(g, es[..m]);
      assert all[|all| - 1] == (g, es[m]);
      assert Seqs(es) == Seqs(es[..m]) + [es[m].seqNo];
    }
  }

  ghost predicate DevOk(d: Dev) {
    && |d.owner| == d.sequence
    && (forall i :: 0 <= i < |d.log| ==> d.log[i].0 in d.ctxs)
    && (forall f :: f in d.ctxs ==> CtxOk(d.ctxs[f]))
    && (forall f :: f in d.ctxs ==> d.ctxs[f].numbers == NumbersOf(d.owner, f))
    && (forall f :: f in d.ctxs ==> d.ctxs[f].published == PublishedBy(d.log, f))
  }

  lemma StepKeeps(d: Dev, e: Event)
    requires DevOk(d)
    ensures DevOk(Step(d, e))
  {
    if e.ctx in d.ctxs && !d.faulted {
      var c := d.ctxs[e.ctx];
      var r := CtxStep(c, d.sequence, e.now, e.act);
      CtxStepKeeps(c, d.sequence, e.now, e.act);
      StepHistory(c, d.sequence, e.now, e.act);
      HistoryStep(d, e, r);
    }
  }

  lemma HistoryStep(d: Dev, e: Event, r: Result)
    requires DevOk(d) && e.ctx in d.ctxs && !d.faulted && r == CtxStep(d.ctxs[e.ctx], d.sequence, e.now, e.act)
    requires HistoryOk(d.ctxs[e.ctx], d.sequence, r)
    ensures var d' := Step(d, e);
      && |d'.owner| == d'.sequence
      && forall f :: f in d.ctxs ==>
           d'.ctxs[f].numbers == NumbersOf(d'.owner, f) && d'.ctxs[f].published == PublishedBy(d'.log, f)
  {
    var d' := Step(d, e);
    forall f | f in d.ctxs
      ensures d'.ctxs[f].numbers == NumbersOf(d'.owner, f) && d'.ctxs[f].published == PublishedBy(d'.log, f)
    {
      PublishedTagged(d.log, e.ctx, r.pubs, f);
      OwnerStep(d.owner, e.ctx, f);
      assert r.sequence == d.sequence ==> d'.owner == d.owner;
    }
  }

  lemma OwnerStep(owner: seq<nat>, g: nat, f: nat)
    ensures NumbersOf(owner + [g], f) == NumbersOf(owner, f) + if f == g then [|owner| + 1] else []
  {
    assert (owner + [g])[..|owner|] == owner;
  }

  lemma OpenedOk()
    ensures CtxOk(OPENED)
  {
  }

  lemma InitialOk(d: Dev)
    requires Initial(d)
    ensures DevOk(d)
  {
    OpenedOk();
    forall f | f in d.ctxs
      ensures CtxOk(d.ctxs[f]) && d.ctxs[f].numbers == NumbersOf([], f) && d.ctxs[f].published == PublishedBy([], f)
    {
      assert d.ctxs[f] == OPENED;
    }
  }

  lemma {:induction false} RunKeepsDev(d: Dev, es: seq<Event>)
    requires Initial(d)
    ensures DevOk(M2m.Run(d, es)) && M2m.Run(d, es).ctxs.Keys == d.ctxs.Keys
  {
    if es == [] {
      InitialOk(d);
    } else {
      RunKeepsDev(d, es[..|es| - 1]);
      StepKeeps(M2m.Run(d, es[..|es| - 1]), es[|es| - 1]);
    }
  }

  lemma {:induction false} NumbersCount(owner: seq<nat>, f: nat, k: nat)
    ensures Count(NumbersOf(owner, f), k) == if 1 <= k <= |owner| && owner[k - 1] == f then 1 else 0
  {
    if owner != [] {
      var m := |owner| - 1;
      NumbersCount(owner[..m], f, k);
      if owner[m] == f {
        CountConcat(NumbersOf(owner[..m], f), [|owner|], k);
        CountOne(|owner|, k);
      } else {
        assert NumbersOf(owner, f) == NumbersOf(owner[..m], f);
      }
    }
  }

  /**
   * Exactly-once metadata, in every reachable state. Successful jobs are numbered 1..sequence
   * without gaps, one owner each. For every context and number: the times it was published
   * plus the CAPTURE buffers on which it is pending is one if the context took the number and
   * zero otherwise. A pending number means exactly a completed buffer that has not left.
   */
  lemma ExactlyOncePublished(d: Dev, es: seq<Event>, f: nat, k: nat)
    requires Initial(d) && f in d.ctxs && k > 0
    ensures var s := M2m.Run(d, es);
      && f in s.ctxs && |s.owner| == s.sequence && PendingExact(s.ctxs[f].capBufs)
      && Count(PublishedBy(s.log, f), k) + Pending(s.ctxs[f].capBufs, k)
         == if k <= s.sequence && s.owner[k - 1] == f then 1 else 0
  {
    RunKeepsDev(d, es);
    var s := M2m.Run(d, es);
    var c := s.ctxs[f];
    assert CtxOk(c) && c.numbers == NumbersOf(s.owner, f) && c.published == PublishedBy(s.log, f);
    NumbersCount(s.owner, f, k);
  }

  lemma {:induction false} PublishedAt(log: seq<(nat, Meta.Entry)>, i: nat)
    requires i < |log|
    ensures Count(PublishedBy(log, log[i].0), log[i].1.seqNo) >= 1
  {
    var f, k, m := log[i].0, log[i].1.seqNo, |log| - 1;
    CountConcat(PublishedBy(log[..m], f), if log[m].0 == f then [log[m].1.seqNo] else [], k);
    if i < m { PublishedAt(log[..m], i); }
  }

  lemma {:induction false} PublishedTwice(log: seq<(nat, Meta.Entry)>, i: nat, j: nat)
    requires i < j < |log| && log[i].0 == log[j].0 && log[i].1.seqNo == log[j].1.seqNo
    ensures Count(PublishedBy(log, log[i].0), log[i].1.seqNo) >= 2
  {
    var f, k, m := log[i].0, log[i].1.seqNo, |log| - 1;
    CountConcat(PublishedBy(log[..m], f), if log[m].0 == f then [log[m].1.seqNo] else [], k);
    if j < m {
      PublishedTwice(log[..m], i, j);
    } else {
      PublishedAt(log[..m], i);
    }
  }

  lemma {:induction false} FinishPositive(bufs: seq<CapBuf>, m: nat, now: nat)
    requires m <= |bufs|
    ensures forall e :: e in FinishFirst(bufs, m, now).1 ==> e.seqNo > 0
  {
    if m > 0 { FinishPositive(bufs, m - 1, now); }
  }

  lemma PubsPositive(c: Ctx, n: nat, now: nat, a: Action)
    ensures forall e :: e in CtxStep(c, n, now, a).pubs ==> e.seqNo > 0
  {
    if LeavesCapture(a) {
      CaptureLeft(c, n, now, a);
    } else if a.ActStreamOffCap? {
      FinishPositive(c.capBufs, |c.capBufs|, now);
    }
  }

  lemma {:induction false} LogPositive(d: Dev, es: seq<Event>)
    requires Initial(d)
    ensures forall i :: 0 <= i < |M2m.Run(d, es).log| ==> M2m.Run(d, es).log[i].1.seqNo > 0
  {
    if es != [] {
      LogPositive(d, es[..|es| - 1]);
      var s, e := M2m.Run(d, es[..|es| - 1]), es[|es| - 1];
      if e.ctx in s.ctxs { PubsPositive(s.ctxs[e.ctx], s.sequence, e.now, e.act); }
    }
  }

  /** No two published entries, of one context or of two, carry the same sequence number. */
  lemma NeverPublishedTwice(d: Dev, es: seq<Event>, i: nat, j: nat)
    requires Initial(d) && i < j < |M2m.Run(d, es).log|
    ensures var log := M2m.Run(d, es).log; log[i].1.seqNo > 0 && log[i].1.seqNo != log[j].1.seqNo
  {
    RunKeepsDev(d, es);
    LogPositive(d, es);
    var log := M2m.Run(d, es).log;
    var k := log[i].1.seqNo;
    if log[j].1.seqNo == k {
      ExactlyOncePublished(d, es, log[i].0, k);
      ExactlyOncePublished(d, es, log[j].0, k);
      PublishedAt(log, i);
      PublishedAt(log, j);
      if log[i].0 == log[j].0 { PublishedTwice(log, i, j); }
      assert false;
    }
  }

  // ---- order of publication ----

  ghost predicate Increasing(s: seq<nat>) { forall i, j :: 0 <= i < j < |s| ==> s[i] < s[j] }

  lemma {:induction false} NumbersIncrease(owner: seq<nat>, f: nat)
    ensures Increasing(NumbersOf(owner, f))
    ensures forall i :: 0 <= i < |NumbersOf(owner, f)| ==> NumbersOf(owner, f)[i] <= |owner|
  {
    if owner != [] { NumbersIncrease(owner[..|owner| - 1], f); }
  }

  /** Completed buffers stand on the list in the order of their numbers. */
  ghost predicate Ranked(bufs: seq<CapBuf>, list: seq<nat>)
    requires forall k :: 0 <= k < |list| ==> list[k] < |bufs|
  {
    forall i, j :: 0 <= i < j < |list| && bufs[list[i]].state == DONE && bufs[list[j]].state == DONE ==>
      bufs[list[i]].pending.seqNo < bufs[list[j]].pending.seqNo
  }

  lemma {:induction false} OwedFrom(bufs: seq<CapBuf>, list: seq<nat>, v: nat)
    requires forall k :: 0 <= k < |list| ==> list[k] < |bufs|
    ensures v in Owed(bufs, list) <==>
      exists k :: 0 <= k < |list| && bufs[list[k]].state == DONE && bufs[list[k]].pending.seqNo == v
    decreases |list|
  {
    if list != [] {
      OwedFrom(bufs, list[1..], v);
      assert forall k :: 0 < k < |list| ==> list[1..][k - 1] == list[k];
    }
  }

  /** What a list owes is increasing exactly when its completed buffers are ranked. */
  lemma {:induction false} OwedRanked(bufs: seq<CapBuf>, list: seq<nat>)
    requires forall k :: 0 <= k < |list| ==> list[k] < |bufs|
    ensures Increasing(Owed(bufs, list)) <==> Ranked(bufs, list)
    decreases |list|
  {
    if list != [] {
      var rest, b := list[1..], bufs[list[0]];
      OwedRanked(bufs, rest);
      RankedTail(bufs, list);
      if b.state == DONE {
        IncreasingCons(b.pending.seqNo, Owed(bufs, rest));
        assert Owed(bufs, list) == [b.pending.seqNo] + Owed(bufs, rest);
        AboveAll(bufs, rest, b.pending.seqNo);
      } else {
        assert Owed(bufs, list) == Owed(bufs, rest);
      }
    }
  }

  lemma AboveAll(bufs: seq<CapBuf>, list: seq<nat>, x: nat)
    requires forall k :: 0 <= k < |list| ==> list[k] < |bufs|
    ensures (forall v :: v in Owed(bufs, list) ==> x < v) <==>
      forall k :: 0 <= k < |list| && bufs[list[k]].state == DONE ==> x < bufs[list[k]].pending.seqNo
  {
    forall k | 0 <= k < |list| && bufs[list[k]].state == DONE
      ensures bufs[list[k]].pending.seqNo in Owed(bufs, list)
    {
      OwedFrom(bufs, list, bufs[list[k]].pending.seqNo);
    }
    forall v | v in Owed(bufs, list)
      ensures exists k :: 0 <= k < |list| && bufs[list[k]].state == DONE && bufs[list[k]].pending.seqNo == v
    {
      OwedFrom(bufs, list, v);
    }
  }

  lemma RankedTail(bufs: seq<CapBuf>, list: seq<nat>)
    requires list != [] && forall k :: 0 <= k < |list| ==> list[k] < |bufs|
    ensures Ranked(bufs, list) <==>
      && Ranked(bufs, list[1..])
      && (bufs[list[0]].state == DONE ==> forall k :: 0 <= k < |list[1..]| && bufs[list[1..][k]].state == DONE ==>
            bufs[list[0]].pending.seqNo < bufs[list[1..][k]].pending.seqNo)
  {
    var rest := list[1..];
    assert forall k :: 0 < k < |list| ==> list[k] == rest[k - 1];
  }

  lemma IncreasingCons(x: nat, s: seq<nat>)
    ensures Increasing([x] + s) <==> Increasing(s) && forall v :: v in s ==> x < v
  {
    IncreasingConcat([x], s);
    assert x in [x] && forall v :: v in [x] ==> v == x;
  }

  lemma IncreasingConcat(a: seq<nat>, b: seq<nat>)
    ensures Increasing(a + b) <==> Increasing(a) && Increasing(b) && forall x, y :: x in a && y in b ==> x < y
  {
    var t := a + b;
    if Increasing(t) {
      forall i, j | 0 <= i < j < |a| ensures a[i] < a[j] { assert t[i] < t[j]; }
      forall i, j | 0 <= i < j < |b| ensures b[i] < b[j] { assert t[|a| + i] < t[|a| + j]; }
      forall x, y | x in a && y in b
        ensures x < y
      {
        var i :| 0 <= i < |a| && a[i] == x;
        var j :| 0 <= j < |b| && b[j] == y;
        assert t[i] < t[|a| + j];
      }
    }
    if Increasing(a) && Increasing(b) && forall x, y :: x in a && y in b ==> x < y {
      forall i, j | 0 <= i < j < |t|
        ensures t[i] < t[j]
      {
        if i < |a| <= j { assert t[i] in a && t[j] in b; }
      }
    }
  }

  function Range(m: nat): (r: seq<nat>)
    ensures |r| == m && forall i :: 0 <= i < m ==> r[i] == i
  {
    seq(m, i => i)
  }

  lemma {:induction false} FinishKeepsRest(bufs: seq<CapBuf>, m: nat, now: nat)
    requires m <= |bufs|
    ensures forall i :: m <= i < |bufs| ==> FinishFirst(bufs, m, now).0[i] == bufs[i]
  {
    if m > 0 { FinishKeepsRest(bufs, m - 1, now); }
  }

  /** A stream-off publishes what is owed in index order. */
  lemma {:induction false} FinishIsIndexOrder(bufs: seq<CapBuf>, m: nat, now: nat)
    requires m <= |bufs| && PendingExact(bufs)
    ensures Seqs(FinishFirst(bufs, m, now).1) == Owed(bufs, Range(m))
  {
    if m > 0 {
      FinishIsIndexOrder(bufs, m - 1, now);
      FinishKeepsRest(bufs, m - 1, now);
      assert Range(m) == Range(m - 1) + [m - 1];
      OwedConcat(bufs, Range(m - 1), [m - 1]);
      var (b1, p1) := FinishFirst(bufs, m - 1, now);
      SeqsConcat(p1, BufFinish(b1, m - 1, now).1);
    }
  }

  lemma RankedByIndex(bufs: seq<CapBuf>, done: seq<nat>)
    requires Listed(bufs, done, {DONE, ERROR}) && DoneListed(bufs, done) && Ranked(bufs, done)
    ensures Ranked(bufs, Range(|bufs|)) <==> DoneByIndex(bufs, done)
  {
    var all := Range(|bufs|);
    if DoneByIndex(bufs, done) {
      forall a, b | 0 <= a < b < |all| && bufs[all[a]].state == DONE && bufs[all[b]].state == DONE
        ensures bufs[all[a]].pending.seqNo < bufs[all[b]].pending.seqNo
      {
        var i :| 0 <= i < |done| && done[i] == a;
        var j :| 0 <= j < |done| && done[j] == b;
        assert i < j;
      }
    }
    if Ranked(bufs, all) {
      forall i, j | 0 <= i < j < |done| && bufs[done[i]].state == DONE && bufs[done[j]].state == DONE
        ensures done[i] < done[j]
      {
        assert all[done[i]] == done[i] && all[done[j]] == done[j];
      }
    }
  }

  lemma SameOwed(bufs: seq<CapBuf>, done: seq<nat>, v: nat)
    requires Listed(bufs, done, {DONE, ERROR}) && DoneListed(bufs, done)
    ensures v in Owed(bufs, Range(|bufs|)) <==> v in Owed(bufs, done)
  {
    var all := Range(|bufs|);
    OwedFrom(bufs, all, v);
    OwedFrom(bufs, done, v);
    if v in Owed(bufs, all) {
      var a :| 0 <= a < |all| && bufs[all[a]].state == DONE && bufs[all[a]].pending.seqNo == v;
      var i :| 0 <= i < |done| && done[i] == all[a];
      assert bufs[done[i]].pending.seqNo == v;
    }
    if v in Owed(bufs, done) {
      var i :| 0 <= i < |done| && bufs[done[i]].state == DONE && bufs[done[i]].pending.seqNo == v;
      assert bufs[all[done[i]]].pending.seqNo == v;
    }
  }

  lemma {:induction false} IncreasingSame(a: seq<nat>, b: seq<nat>)
    requires Increasing(a) && Increasing(b) && forall v :: v in a <==> v in b
    ensures a == b
  {
    assert b != [] ==> b[0] in b;
    if a != [] {
      var m, k := |a| - 1, |b| - 1;
      assert a[m] in b && b[k] in a && a[m] == b[k];
      forall v
        ensures v in a[..m] <==> v in b[..k]
      {
        assert v in a[..m] <==> v in a && v != a[m];
        assert v in b[..k] <==> v in b && v != b[k];
      }
      IncreasingSame(a[..m], b[..k]);
      assert a == a[..m] + [a[m]] && b == b[..k] + [b[k]];
    }
  }

  /** The same buffers, each numbered by its own index. */
  function Indexed(bufs: seq<CapBuf>): (r: seq<CapBuf>)
    ensures |r| == |bufs|
  {
    seq(|bufs|, k requires 0 <= k < |bufs| => bufs[k].(pending := bufs[k].pending.(seqNo := k)))
  }

  /** The numbers of a list of buffers. */
  function NumbersAt(bufs: seq<CapBuf>, list: seq<nat>): seq<nat>
    requires forall k :: 0 <= k < |list| ==> list[k] < |bufs|
  {
    seq(|list|, k requires 0 <= k < |list| => bufs[list[k]].pending.seqNo)
  }

  /** What a list owes, through the indices of its completed buffers. */
  lemma {:induction false} OwedAtIndices(bufs: seq<CapBuf>, list: seq<nat>)
    requires forall k :: 0 <= k < |list| ==> list[k] < |bufs|
    ensures var done := Owed(Indexed(bufs), list);
      (forall k :: 0 <= k < |done| ==> done[k] < |bufs|) && Owed(bufs, list) == NumbersAt(bufs, done)
    decreases |list|
  {
    if list != [] {
      OwedAtIndices(bufs, list[1..]);
      NumbersCons(bufs, list[0], Owed(Indexed(bufs), list[1..]));
      OwedHead(bufs, list);
      OwedHead(Indexed(bufs), list);
    }
  }

  lemma OwedHead(bufs: seq<CapBuf>, list: seq<nat>)
    requires list != [] && list[0] < |bufs|
    ensures Owed(bufs, list) ==
      if bufs[list[0]].state == DONE then [bufs[list[0]].pending.seqNo] + Owed(bufs, list[1..])
      else Owed(bufs, list[1..])
  {
  }

  lemma NumbersCons(bufs: seq<CapBuf>, i: nat, list: seq<nat>)
    requires i < |bufs| && forall k :: 0 <= k < |list| ==> list[k] < |bufs|
    ensures forall k :: 0 <= k < |[i] + list| ==> ([i] + list)[k] < |bufs|
    ensures NumbersAt(bufs, [i] + list) == [bufs[i].pending.seqNo] + NumbersAt(bufs, list)
  {
  }

  /** Index order and completion order owe the same when the done list is in index order. */
  lemma IndexOrderOwes(bufs: seq<CapBuf>, done: seq<nat>)
    requires Listed(bufs, done, {DONE, ERROR}) && DoneListed(bufs, done) && DoneByIndex(bufs, done)
    ensures Owed(bufs, Range(|bufs|)) == Owed(bufs, done)
  {
    var all, at := Range(|bufs|), Indexed(bufs);
    assert Ranked(at, all) && Ranked(at, done);
    OwedRanked(at, all);
    OwedRanked(at, done);
    forall v ensures v in Owed(at, all) <==> v in Owed(at, done) { SameOwed(at, done, v); }
    IncreasingSame(Owed(at, all), Owed(at, done));
    OwedAtIndices(bufs, all);
    OwedAtIndices(bufs, done);
  }

  /**
   * A CAPTURE stream-off keeps a context's published numbers strictly increasing exactly when
   * the completed buffers it finishes were completed in index order.
   */
  lemma StreamOffOrder(c: Ctx, n: nat, now: nat)
    requires CtxOk(c) && Increasing(c.published + Owed(c.capBufs, c.capQ.done))
    ensures Increasing(StreamOffCap(c, n, now).ctx.published) <==> DoneByIndex(c.capBufs, c.capQ.done)
  {
    var bufs, done := c.capBufs, c.capQ.done;
    var all := Range(|bufs|);
    FinishIsIndexOrder(bufs, |bufs|, now);
    IncreasingConcat(c.published, Owed(bufs, done));
    IncreasingConcat(c.published, Owed(bufs, all));
    OwedRanked(bufs, done);
    OwedRanked(bufs, all);
    RankedByIndex(bufs, done);
    forall v | v in Owed(bufs, all) ensures v in Owed(bufs, done) { SameOwed(bufs, done, v); }
  }

  lemma OnlyStreamOffDisorders(c: Ctx, n: nat, now: nat, a: Action)
    requires !a.ActStreamOffCap?
    ensures CtxStep(c, n, now, a).ctx.fifo == c.fifo
  {
    if LeavesCapture(a) { CaptureLeft(c, n, now, a); }
  }

  /** Once a stream-off has met its buffers out of index order, the published numbers are out of order. */
  lemma {:induction false} DisorderShows(d: Dev, es: seq<Event>, f: nat)
    requires Initial(d) && f in d.ctxs
    ensures f in M2m.Run(d, es).ctxs && (!M2m.Run(d, es).ctxs[f].fifo ==> !Increasing(M2m.Run(d, es).ctxs[f].published))
  {
    if es != [] {
      var s, e := M2m.Run(d, es[..|es| - 1]), es[|es| - 1];
      DisorderShows(d, es[..|es| - 1], f);
      RunKeepsDev(d, es[..|es| - 1]);
      if e.ctx == f && !s.faulted { DisorderStep(s, f, e.now, e.act); }
    }
  }

  lemma DisorderStep(s: Dev, f: nat, now: nat, a: Action)
    requires DevOk(s) && f in s.ctxs && (!s.ctxs[f].fifo ==> !Increasing(s.ctxs[f].published))
    ensures var c := CtxStep(s.ctxs[f], s.sequence, now, a).ctx; !c.fifo ==> !Increasing(c.published)
  {
    var c := s.ctxs[f];
    var r := CtxStep(c, s.sequence, now, a);
    StepHistory(c, s.sequence, now, a);
    IncreasingConcat(c.published, Seqs(r.pubs));
    if !a.ActStreamOffCap? {
      OnlyStreamOffDisorders(c, s.sequence, now, a);
    } else if c.fifo {
      NumbersIncrease(s.owner, f);
      StreamOffOrder(c, s.sequence, now);
    }
  }

  /**
   * Over every run, a context's published numbers strictly increase exactly when each of its
   * CAPTURE stream-offs found its completed buffers in index order.
   */
  lemma PublishedInOrder(d: Dev, es: seq<Event>, f: nat)
    requires Initial(d) && f in d.ctxs
    ensures f in M2m.Run(d, es).ctxs
    ensures Increasing(PublishedBy(M2m.Run(d, es).log, f)) <==> M2m.Run(d, es).ctxs[f].fifo
  {
    RunKeepsDev(d, es);
    DisorderShows(d, es, f);
    var s := M2m.Run(d, es);
    assert CtxOk(s.ctxs[f]) && s.ctxs[f].published == PublishedBy(s.log, f);
    if s.ctxs[f].fifo {
      NumbersIncrease(s.owner, f);
      assert PublishedBy(s.log, f) <= NumbersOf(s.owner, f);
    }
  }

  /** A successful job: its CAPTURE buffer is done and carries the next number. */
  lemma JobNumbers(c: Ctx, n: nat, now: nat, cpu: nat)
    requires CanRun(c) && DeviceRun(c, n, true, now, cpu).sequence == n + 1
    ensures var c', d := DeviceRun(c, n, true, now, cpu).ctx, c.capQ.ready[0];
      && c'.capQ == c.capQ.(ready := c.capQ.ready[1..], done := c.capQ.done + [d])
      && |c'.capBufs| == |c.capBufs| && c'.capBufs == c.capBufs[d := c'.capBufs[d]]
      && c'.capBufs[d].state == DONE && c'.capBufs[d].pending.seqNo == n + 1
  {
  }

  /** Two jobs that complete CAPTURE buffer 1 before buffer 0, then a stream-off. */
  lemma SecondFirst(c: Ctx, n: nat, now: nat, cpu: nat)
    requires CtxOk(c) && |c.capBufs| == 2 && c.capQ == Queue([], [1, 0], [], true)
    requires CanRun(c) && DeviceRun(c, n, true, now, cpu).sequence == n + 1
    requires var c1 := DeviceRun(c, n, true, now, cpu).ctx;
      CanRun(c1) && DeviceRun(c1, n + 1, true, now, cpu).sequence == n + 2
    ensures var c2 := DeviceRun(DeviceRun(c, n, true, now, cpu).ctx, n + 1, true, now, cpu).ctx;
      Seqs(StreamOffCap(c2, n + 2, now).pubs) == [n + 2, n + 1]
  {
    var c1 := DeviceRun(c, n, true, now, cpu).ctx;
    var c2 := DeviceRun(c1, n + 1, true, now, cpu).ctx;
    JobNumbers(c, n, now, cpu);
    JobNumbers(c1, n + 1, now, cpu);
    RunKeeps(c, n, true, now, cpu);
    RunKeeps(c1, n + 1, true, now, cpu);
    FinishIsIndexOrder(c2.capBufs, 2, now);
    OwedTwo(c2.capBufs, n + 2, n + 1);
  }

  lemma OwedTwo(bufs: seq<CapBuf>, x: nat, y: nat)
    requires |bufs| == 2 && bufs[0].state == DONE && bufs[1].state == DONE
    requires bufs[0].pending.seqNo == x && bufs[1].pending.seqNo == y
    ensures Owed(bufs, Range(2)) == [x, y]
  {
    assert Range(2) == [0, 1] && [0, 1][1..] == [1] && [1][1..] == [];
    assert Owed(bufs, [1]) == [y] + Owed(bufs, []);
  }

  /** A fresh context with 1x1 buffers, CAPTURE buffer 1 queued before buffer 0, CAPTURE streaming. */
  function BackToFront(): Ctx {
    var c := ReqBufsCap(SetFmt(OPENED, true, 1, 1), 0, [[0], [0]]).ctx;
    StreamOnCap(QBufCap(QBufCap(c, 0, 1, None).ctx, 0, 0, None).ctx, 0).ctx
  }

  /** Then OUTPUT streams and two OUTPUT buffers are queued. */
  function TwoQueued(c: Ctx): Ctx {
    var c1 := StreamOnOut(ReqBufsOut(c, 0, MMAP, [[7], [8]]).ctx, 0, P.Params(30, 0, 0), true, 0).ctx;
    QBufOut(QBufOut(c1, 0, 0, None, true, 0).ctx, 0, 1, None, true, 0).ctx
  }

  lemma BackToFrontState()
    ensures var c := BackToFront();
      && c == OPENED.(outFmt := Fmt(1, 1, 1, 1), capFmt := Fmt(1, 1, 1, 1), capBufs := c.capBufs, capQ := c.capQ)
      && c.capBufs == [CapBuf(ACTIVE, [0], BLANK), CapBuf(ACTIVE, [0], BLANK)] && c.capQ == Queue([], [1, 0], [], true)
  {
    var c := ReqBufsCap(SetFmt(OPENED, true, 1, 1), 0, [[0], [0]]).ctx;
    assert c.capBufs == [CapBuf(DEQUEUED, [0], BLANK), CapBuf(DEQUEUED, [0], BLANK)];
    var c1 := QBufCap(c, 0, 1, None).ctx;
    assert c1.capBufs == [CapBuf(DEQUEUED, [0], BLANK), CapBuf(QUEUED, [0], BLANK)] && c1.capQ.held == [1];
    var c2 := QBufCap(c1, 0, 0, None).ctx;
    assert c2.capBufs == [CapBuf(QUEUED, [0], BLANK), CapBuf(QUEUED, [0], BLANK)] && c2.capQ.held == [1, 0];
  }

  /** An OUTPUT buffer waiting for an ALGO_NONE job on one pixel. */
  predicate WaitsForCopy(b: OutBuf) { b.snap.algo == Cv.ALGO_NONE && |b.plane| == 1 }

  lemma TwoQueuedState(c: Ctx)
    requires c.outFmt == Fmt(1, 1, 1, 1) && c.outQ == IDLE && c.ctl == DEFAULT_CONTROLS && c.src.producer == P.Fixture
    ensures var c' := TwoQueued(c);
      && SameCapture(c, c') && c'.outFmt == c.outFmt && c'.capFmt == c.capFmt
      && c'.outQ == Queue([], [0, 1], [], true) && |c'.outBufs| == 2
      && WaitsForCopy(c'.outBufs[0]) && WaitsForCopy(c'.outBufs[1])
  {
    var c0 := ReqBufsOut(c, 0, MMAP, [[7], [8]]).ctx;
    assert |c0.outBufs| == 2 && c0.outBufs[0].plane == [7] && c0.outBufs[1].plane == [8];
    var c1 := StreamOnOut(c0, 0, P.Params(30, 0, 0), true, 0).ctx;
    assert QueueHeld(c0, [], 0, true, 0) == Same(c0, 0);
    assert c1.outBufs == c0.outBufs && c1.outQ == Queue([], [], [], true);
    var c2 := QBufOut(c1, 0, 0, None, true, 0).ctx;
    assert c2.outQ.ready == [0] && c2.outBufs[1] == c1.outBufs[1];
    var c3 := QBufOut(c2, 0, 1, None, true, 0).ctx;
    assert c3.outQ.ready == [0, 1] && c3.outBufs[0] == c2.outBufs[0];
  }

  lemma CopySucceeds(c: Ctx, n: nat)
    requires CanRun(c) && c.outFmt == Fmt(1, 1, 1, 1) && c.capFmt == Fmt(1, 1, 1, 1)
    requires WaitsForCopy(c.outBufs[c.outQ.ready[0]]) && |c.capBufs[c.capQ.ready[0]].plane| == 1
    ensures DeviceRun(c, n, true, 0, 0).sequence == n + 1
  {
    assert RunSafe(c);
  }

  lemma CopyLeaves(c: Ctx, n: nat)
    requires CanRun(c) && |c.outBufs| == 2 && c.outQ == Queue([], [0, 1], [], true)
    requires DeviceRun(c, n, true, 0, 0).sequence == n + 1
    ensures var c' := DeviceRun(c, n, true, 0, 0).ctx;
      && c'.outFmt == c.outFmt && c'.capFmt == c.capFmt && c'.outQ == Queue([], [1], [0], true)
      && |c'.outBufs| == 2 && c'.outBufs[1] == c.outBufs[1]
  {
  }

  /** CAPTURE buffers all waiting and no history yet. */
  lemma NothingPending(c: Ctx)
    requires c.published == [] && c.numbers == [] && c.capQ == Queue([], [1, 0], [], true)
    requires |c.capBufs| == 2
    requires forall i :: 0 <= i < 2 ==> c.capBufs[i].state == ACTIVE && c.capBufs[i].pending.seqNo == 0
    ensures CtxOk(c)
  {
    forall k | k > 0 ensures Pending(c.capBufs, k) == 0 { PendingZero(c.capBufs, k); }
  }

  lemma CopiesSecondFirst(c: Ctx)
    requires CtxOk(c) && |c.capBufs| == 2 && c.capQ == Queue([], [1, 0], [], true)
    requires |c.outBufs| == 2 && c.outQ == Queue([], [0, 1], [], true) && c.outFmt == c.capFmt == Fmt(1, 1, 1, 1)
    requires WaitsForCopy(c.outBufs[0]) && WaitsForCopy(c.outBufs[1])
    requires |c.capBufs[0].plane| == 1 && |c.capBufs[1].plane| == 1
    ensures CanRun(c) && CanRun(DeviceRun(c, 0, true, 0, 0).ctx)
    ensures Seqs(StreamOffCap(DeviceRun(DeviceRun(c, 0, true, 0, 0).ctx, 1, true, 0, 0).ctx, 2, 0).pubs) == [2, 1]
  {
    CopySucceeds(c, 0);
    JobNumbers(c, 0, 0, 0);
    CopyLeaves(c, 0);
    CopySucceeds(DeviceRun(c, 0, true, 0, 0).ctx, 1);
    SecondFirst(c, 0, 0, 0);
  }

  /**
   * Completion order and index order can differ: queue CAPTURE buffer 1 before buffer 0, let
   * both jobs succeed and stop the stream, and the second job's entry is published first.
   */
  lemma StreamOffCanReorder()
    ensures var c := TwoQueued(BackToFront());
      && CanRun(c) && CanRun(DeviceRun(c, 0, true, 0, 0).ctx)
      && Seqs(StreamOffCap(DeviceRun(DeviceRun(c, 0, true, 0, 0).ctx, 1, true, 0, 0).ctx, 2, 0).pubs) == [2, 1]
  {
    BackToFrontState();
    TwoQueuedState(BackToFront());
    NothingPending(TwoQueued(BackToFront()));
    CopiesSecondFirst(TwoQueued(BackToFront()));
  }
}
