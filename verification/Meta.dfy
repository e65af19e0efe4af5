/**
 * The metadata sideband of kmod/vpipe-meta.c: one 256-slot ring, any number of open files
 * with their own cursor, and a read that is split into a locked section and a later copy.
 *
 * `Step` is the device as the source has it. `LogStep` is the device a reader may believe
 * in: an append-only log, with a reader thrown forward to the 256 newest entries.
 */
module Meta {
  import opened Base
  import Crc32

  const RING_SIZE := 256
  const META_VERSION := 2
  /** sizeof(struct vpipe_meta_entry) */
  const ENTRY_SIZE := 120

  datatype Flags = Flags(overrun: bool, hwTs: bool, dropped: bool)

  datatype Entry = Entry(
    version: nat, entrySize: nat, flags: Flags,
    seqNo: nat, srcSequence: int, bufferIndex: nat,
    sourceTs: nat, qbufTs: nat, captureDoneTs: nat, dqbufTs: nat,
    bytesused: nat, crc32: Crc32.Word,
    algoId: int, algoStatus: nat,
    roiLeft: int, roiTop: int, roiWidth: int, roiHeight: int,
    value0: nat, value1: nat,
    sourceBackend: nat, bufferType: nat, queueDepth: nat, cpuId: nat)

  /** The publisher owns the version fields. */
  function Normalized(e: Entry): Entry { e.(version := META_VERSION, entrySize := ENTRY_SIZE) }

  function Flagged(e: Entry, overrun: bool): Entry {
    if overrun then e.(flags := e.flags.(overrun := true)) else e
  }

  /** First index still held by a ring whose next free index is `head`. */
  function Oldest(head: nat): nat { if head > RING_SIZE then head - RING_SIZE else 0 }

  // ---- the device ----

  datatype Device = Device(ring: seq<Entry>, head: nat, published: nat, dropped: nat, dying: bool)

  function AfterPublish(d: Device, e: Entry): Device
    requires |d.ring| == RING_SIZE
  {
    var head := d.head + 1;
    d.(ring := d.ring[d.head % RING_SIZE := Normalized(e)],
       head := head,
       published := d.published + 1,
       dropped := if head > RING_SIZE then head - RING_SIZE else d.dropped)
  }

  datatype LockResult = Eof | Again | Got(tail: nat, entry: Entry)

  /** The locked section of a read by a file whose cursor is `tail`. */
  function LockRead(d: Device, tail: nat): LockResult
    requires |d.ring| == RING_SIZE
  {
    if d.dying then Eof
    else if tail == d.head then Again
    else if tail < Oldest(d.head) then
      Got(Oldest(d.head), Flagged(d.ring[Oldest(d.head) % RING_SIZE], true))
    else Got(tail, d.ring[tail % RING_SIZE])
  }

  /** `Admitted` is past the wait queue, `Copying` is between the lock and copy_to_user. */
  datatype Phase = Idle | Admitted(blocking: bool) | Copying(entry: Entry)

  datatype File = File(tail: nat, phase: Phase)

  datatype State = State(dev: Device, files: map<nat, File>)

  datatype Event =
    | DoPublish(entry: Entry)
    | DoOpen(f: nat)
    | DoRelease(f: nat)
    | DoBegin(f: nat, count: nat, nonblock: bool)
    | DoLock(f: nat)
    | DoCopy(f: nat, ok: bool)
    | DoExit

  datatype Output = Silent | Blocked | Failed(err: Errno) | EndOfFile | Delivered(entry: Entry)

  /** Whether a read may pass the size check and the wait queue. */
  function BeginOutput(count: nat, nonblock: bool, dying: bool, empty: bool): Output {
    if count < ENTRY_SIZE then Failed(EINVAL)
    else if nonblock || dying || !empty then Silent
    else Blocked
  }

  function Step(s: State, e: Event): (r: (State, Output))
    requires |s.dev.ring| == RING_SIZE
    ensures |r.0.dev.ring| == RING_SIZE
  {
    match e
    case DoPublish(x) => (s.(dev := AfterPublish(s.dev, x)), Silent)
    case DoExit => (s.(dev := s.dev.(dying := true)), Silent)
    case DoOpen(f) =>
      if f in s.files then (s, Silent)
      else (s.(files := s.files[f := File(s.dev.head, Idle)]), Silent)
    case DoRelease(f) =>
      if f !in s.files || !s.files[f].phase.Idle? then (s, Silent)
      else (s.(files := s.files - {f}), Silent)
    case DoBegin(f, count, nonblock) =>
      if f !in s.files || !s.files[f].phase.Idle? then (s, Silent) else
        var out := BeginOutput(count, nonblock, s.dev.dying, s.dev.head == s.files[f].tail);
        (if out.Silent? then s.(files := s.files[f := s.files[f].(phase := Admitted(!nonblock))]) else s, out)
    case DoLock(f) =>
      if f !in s.files || !s.files[f].phase.Admitted? then (s, Silent) else
        match LockRead(s.dev, s.files[f].tail) {
          case Eof => (s.(files := s.files[f := s.files[f].(phase := Idle)]), EndOfFile)
          case Again => (s.(files := s.files[f := s.files[f].(phase := Idle)]), Failed(EAGAIN))
          case Got(tail, entry) => (s.(files := s.files[f := File(tail, Copying(entry))]), Silent)
        }
    case DoCopy(f, ok) =>
      if f !in s.files || !s.files[f].phase.Copying? then (s, Silent)
      else if ok then
        (s.(files := s.files[f := File(s.files[f].tail + 1, Idle)]), Delivered(s.files[f].phase.entry))
      else (s.(files := s.files[f := s.files[f].(phase := Idle)]), Failed(EFAULT))
  }

  function Run(s: State, es: seq<Event>): (r: (State, seq<Output>))
    requires |s.dev.ring| == RING_SIZE
    ensures |r.0.dev.ring| == RING_SIZE && |r.1| == |es|
  {
    if es == [] then (s, []) else
      var (s', outs) := Run(s, es[..|es| - 1]);
      var (s'', out) := Step(s', es[|es| - 1]);
      (s'', outs + [out])
  }

  ghost predicate Initial(s: State) {
    |s.dev.ring| == RING_SIZE && s.dev.head == s.dev.published == s.dev.dropped == 0 && !s.dev.dying && s.files == map[]
  }

  // ---- the log ----

  /** Log entry `index` was handed out; without skips it would have been entry `due`. */
  datatype Delivery = Delivery(due: nat, index: nat, overrun: bool, lost: bool)

  datatype Skip = Skip(origin: nat, target: nat, head: nat)

  datatype LogPhase = LogIdle | LogAdmitted(blocking: bool) | LogTaken(overrun: bool)

  /**
   * A reader of the log. `cursor` and `phase` are its state; the rest is its history: where
   * it opened, the entry due after the last one handed out, what it was handed, every time
   * it was thrown forward, and whether a copy that carried the overrun flag has faulted
   * since the last delivery.
   */
  datatype LogReader = LogReader(
    cursor: nat, phase: LogPhase, openedAt: nat, due: nat, got: seq<Delivery>, skips: seq<Skip>,
    lost: bool, faults: nat)

  datatype LogState = LogState(log: seq<Entry>, dying: bool, readers: map<nat, LogReader>)

  function LogBegin(l: LogState, f: nat, count: nat, nonblock: bool): (LogState, Output)
    requires f in l.readers
  {
    var r := l.readers[f];
    var out := BeginOutput(count, nonblock, l.dying, |l.log| == r.cursor);
    (if out.Silent? then l.(readers := l.readers[f := r.(phase := LogAdmitted(!nonblock))]) else l, out)
  }

  /** A reader about to be handed an entry of a log of `n`: its own next one, or the oldest of the newest 256. */
  function Take(r: LogReader, n: nat): LogReader {
    var target := Max(r.cursor, n - RING_SIZE);
    r.(cursor := target, phase := LogTaken(target != r.cursor),
       skips := if target == r.cursor then r.skips else r.skips + [Skip(r.cursor, target, n)])
  }

  /** The copy reached userspace. */
  function Hand(r: LogReader): LogReader
    requires r.phase.LogTaken?
  {
    r.(cursor := r.cursor + 1, phase := LogIdle,
       due := r.cursor + 1,
       got := r.got + [Delivery(r.due, r.cursor, r.phase.overrun, r.lost)], lost := false)
  }

  /** The copy faulted: the cursor stays where the lock left it and the flag is forgotten. */
  function Fault(r: LogReader): LogReader
    requires r.phase.LogTaken?
  {
    r.(phase := LogIdle, lost := r.lost || r.phase.overrun, faults := r.faults + 1)
  }

  function LogLock(l: LogState, f: nat): (LogState, Output)
    requires f in l.readers
  {
    var r := l.readers[f];
    if l.dying then (l.(readers := l.readers[f := r.(phase := LogIdle)]), EndOfFile)
    else if r.cursor == |l.log| then (l.(readers := l.readers[f := r.(phase := LogIdle)]), Failed(EAGAIN))
    else (l.(readers := l.readers[f := Take(r, |l.log|)]), Silent)
  }

  /** Hand out the log's own entry at the cursor, read at the time of the copy. */
  function LogCopy(l: LogState, f: nat, ok: bool): (LogState, Output)
    requires f in l.readers && l.readers[f].phase.LogTaken? && l.readers[f].cursor < |l.log|
  {
    var r := l.readers[f];
    if ok then (l.(readers := l.readers[f := Hand(r)]), Delivered(Flagged(l.log[r.cursor], r.phase.overrun)))
    else (l.(readers := l.readers[f := Fault(r)]), Failed(EFAULT))
  }

  /**
   * Every cursor is at or below the end of the log, and below it while an entry is taken. A
   * reader that came through the wait queue has something to read, or the device is going away.
   */
  ghost predicate CursorOk(r: LogReader, n: nat, dying: bool) {
    && r.cursor <= n
    && (r.phase.LogTaken? ==> r.cursor < n)
    && (r.phase == LogAdmitted(true) ==> dying || r.cursor < n)
  }

  ghost predicate CursorsOk(l: LogState) {
    forall f :: f in l.readers ==> CursorOk(l.readers[f], |l.log|, l.dying)
  }

  function LogStep(l: LogState, e: Event): (r: (LogState, Output))
    requires CursorsOk(l)
    ensures CursorsOk(r.0)
  {
    match e
    case DoPublish(x) => (l.(log := l.log + [Normalized(x)]), Silent)
    case DoExit => (l.(dying := true), Silent)
    case DoOpen(f) =>
      if f in l.readers then (l, Silent)
      else (l.(readers := l.readers[f := LogReader(|l.log|, LogIdle, |l.log|, |l.log|, [], [], false, 0)]), Silent)
    case DoRelease(f) =>
      if f !in l.readers || !l.readers[f].phase.LogIdle? then (l, Silent)
      else (l.(readers := l.readers - {f}), Silent)
    case DoBegin(f, count, nonblock) =>
      if f !in l.readers || !l.readers[f].phase.LogIdle? then (l, Silent) else LogBegin(l, f, count, nonblock)
    case DoLock(f) =>
      if f !in l.readers || !l.readers[f].phase.LogAdmitted? then (l, Silent) else LogLock(l, f)
    case DoCopy(f, ok) =>
      if f !in l.readers || !l.readers[f].phase.LogTaken? then (l, Silent) else LogCopy(l, f, ok)
  }

  function LogRun(l: LogState, es: seq<Event>): (r: (LogState, seq<Output>))
    requires CursorsOk(l)
    ensures CursorsOk(r.0) && |r.1| == |es|
  {
    if es == [] then (l, []) else
      var (l', outs) := LogRun(l, es[..|es| - 1]);
      var (l'', out) := LogStep(l', es[|es| - 1]);
      (l'', outs + [out])
  }

  const EMPTY_LOG := LogState([], false, map[])

  // ---- the ring refines the log ----

  ghost predicate FileMatches(file: File, r: LogReader, log: seq<Entry>) {
    && file.tail == r.cursor <= |log|
    && match file.phase {
         case Idle => r.phase == LogIdle
         case Admitted(b) => r.phase == LogAdmitted(b)
         case Copying(entry) =>
           r.phase.LogTaken? && r.cursor < |log| && entry == Flagged(log[r.cursor], r.phase.overrun)
       }
  }

  ghost predicate DeviceMatches(d: Device, log: seq<Entry>, dying: bool) {
    && |d.ring| == RING_SIZE
    && d.head == d.published == |log|
    && d.dropped == Max(0, |log| - RING_SIZE)
    && d.dying == dying
    && forall i :: Oldest(|log|) <= i < |log| ==> d.ring[i % RING_SIZE] == log[i]
  }

  /** The refinement relation. */
  ghost predicate Matches(s: State, l: LogState) {
    && DeviceMatches(s.dev, l.log, l.dying)
    && s.files.Keys == l.readers.Keys
    && forall f :: f in s.files ==> FileMatches(s.files[f], l.readers[f], l.log)
  }

  lemma PublishMatches(d: Device, log: seq<Entry>, dying: bool, e: Entry)
    requires DeviceMatches(d, log, dying)
    ensures DeviceMatches(AfterPublish(d, e), log + [Normalized(e)], dying)
  {
    var log' := log + [Normalized(e)];
    var d' := AfterPublish(d, e);
    forall i | Oldest(|log'|) <= i < |log'|
      ensures d'.ring[i % RING_SIZE] == log'[i]
    {
      if i < |log| {
        DistinctSlots(i, |log|);
      }
    }
  }

  lemma DistinctSlots(i: nat, j: nat)
    requires i < j < i + RING_SIZE
    ensures i % RING_SIZE != j % RING_SIZE
  {
  }

  lemma UpdateMatches(s: State, l: LogState, f: nat, file: File, r: LogReader)
    requires Matches(s, l) && f in s.files && FileMatches(file, r, l.log)
    ensures Matches(s.(files := s.files[f := file]), l.(readers := l.readers[f := r]))
  {
  }

  lemma LockRefines(s: State, l: LogState, f: nat)
    requires Matches(s, l) && CursorsOk(l) && f in s.files && s.files[f].phase.Admitted?
    ensures Matches(Step(s, DoLock(f)).0, LogLock(l, f).0)
    ensures Step(s, DoLock(f)).1 == LogLock(l, f).1
  {
    var file, r := s.files[f], l.readers[f];
    assert FileMatches(file, r, l.log);
    match LockRead(s.dev, file.tail)
    case Eof => UpdateMatches(s, l, f, file.(phase := Idle), r.(phase := LogIdle));
    case Again => UpdateMatches(s, l, f, file.(phase := Idle), r.(phase := LogIdle));
    case Got(tail, entry) =>
      var r' := LogLock(l, f).0.readers[f];
      assert tail == r'.cursor && Oldest(|l.log|) <= tail < |l.log|;
      assert entry == Flagged(l.log[tail], r'.phase.overrun);
      UpdateMatches(s, l, f, File(tail, Copying(entry)), r');
  }

  lemma CopyRefines(s: State, l: LogState, f: nat, ok: bool)
    requires Matches(s, l) && CursorsOk(l) && f in s.files && s.files[f].phase.Copying?
    ensures l.readers[f].phase.LogTaken?
    ensures Matches(Step(s, DoCopy(f, ok)).0, LogCopy(l, f, ok).0)
    ensures Step(s, DoCopy(f, ok)).1 == LogCopy(l, f, ok).1
  {
    assert FileMatches(s.files[f], l.readers[f], l.log);
    UpdateMatches(s, l, f, Step(s, DoCopy(f, ok)).0.files[f], LogCopy(l, f, ok).0.readers[f]);
  }

  /** A publish appends to the log and touches no file. */
  lemma PublishRefines(s: State, l: LogState, e: Entry)
    requires Matches(s, l) && CursorsOk(l)
    ensures Matches(Step(s, DoPublish(e)).0, LogStep(l, DoPublish(e)).0)
  {
    PublishMatches(s.dev, l.log, l.dying, e);
    forall f | f in s.files
      ensures FileMatches(s.files[f], l.readers[f], l.log + [Normalized(e)])
    {
      assert FileMatches(s.files[f], l.readers[f], l.log);
    }
  }

  lemma BeginRefines(s: State, l: LogState, f: nat, count: nat, nonblock: bool)
    requires Matches(s, l) && CursorsOk(l) && f in s.files && s.files[f].phase.Idle?
    ensures Matches(Step(s, DoBegin(f, count, nonblock)).0, LogBegin(l, f, count, nonblock).0)
    ensures Step(s, DoBegin(f, count, nonblock)).1 == LogBegin(l, f, count, nonblock).1
  {
    assert FileMatches(s.files[f], l.readers[f], l.log);
    UpdateMatches(s, l, f, s.files[f].(phase := Admitted(!nonblock)), l.readers[f].(phase := LogAdmitted(!nonblock)));
  }

  lemma OpenReleaseRefines(s: State, l: LogState, e: Event)
    requires Matches(s, l) && CursorsOk(l) && (e.DoOpen? || e.DoRelease? || e.DoExit?)
    ensures Matches(Step(s, e).0, LogStep(l, e).0)
    ensures Step(s, e).1 == LogStep(l, e).1
  {
    if !e.DoExit? && e.f in s.files {
      assert FileMatches(s.files[e.f], l.readers[e.f], l.log);
    }
  }

  /** One event keeps the refinement relation and gives the same answer. */
  lemma StepRefines(s: State, l: LogState, e: Event)
    requires Matches(s, l) && CursorsOk(l)
    ensures Matches(Step(s, e).0, LogStep(l, e).0)
    ensures Step(s, e).1 == LogStep(l, e).1
  {
    match e
    case DoPublish(x) => PublishRefines(s, l, x);
    case DoBegin(f, count, nonblock) =>
      if f in s.files {
        assert FileMatches(s.files[f], l.readers[f], l.log);
        if s.files[f].phase.Idle? { BeginRefines(s, l, f, count, nonblock); }
      }
    case DoLock(f) =>
      if f in s.files {
        assert FileMatches(s.files[f], l.readers[f], l.log);
        if s.files[f].phase.Admitted? { LockRefines(s, l, f); }
      }
    case DoCopy(f, ok) =>
      if f in s.files {
        assert FileMatches(s.files[f], l.readers[f], l.log);
        if s.files[f].phase.Copying? { CopyRefines(s, l, f, ok); }
      }
    case _ => OpenReleaseRefines(s, l, e);
  }

  /**
   * For every interleaving of publishes, opens, releases and two-phase reads by any number
   * of files, the ring answers every call exactly as the unbounded log does.
   */
  lemma {:induction false} RingRefinesLog(s: State, es: seq<Event>)
    requires Initial(s)
    ensures Run(s, es).1 == LogRun(EMPTY_LOG, es).1
    ensures Matches(Run(s, es).0, LogRun(EMPTY_LOG, es).0)
  {
    if es != [] {
      var front, e := es[..|es| - 1], es[|es| - 1];
      RingRefinesLog(s, front);
      StepRefines(Run(s, front).0, LogRun(EMPTY_LOG, front).0, e);
    }
  }

  /** The counters of the stats ioctl, in every reachable state. */
  lemma StatsExact(s: State, es: seq<Event>)
    requires Initial(s)
    ensures var d := Run(s, es).0.dev;
      d.published == d.head == |Submitted(es)| && d.dropped == Max(0, d.head - 256) && (d.dying <==> DoExit in es)
  {
    RingRefinesLog(s, es);
    LogIsPublished(es);
    LogOfSubmitted(es);
    GoneAway(es);
  }

  /** The device goes away with the exit event. */
  lemma {:induction false} GoneAway(es: seq<Event>)
    ensures LogRun(EMPTY_LOG, es).0.dying <==> DoExit in es
  {
    if es != [] {
      GoneAway(es[..|es| - 1]);
      assert es == es[..|es| - 1] + [es[|es| - 1]];
    }
  }

  // ---- what a reader of the log sees ----

  function SkippedTotal(skips: seq<Skip>): int {
    if skips == [] then 0 else
      var m := |skips| - 1;
      SkippedTotal(skips[..m]) + (skips[m].target - skips[m].origin)
  }

  /** Each delivery is due right after the one before it. */
  ghost predicate Chained(r: LogReader) {
    && r.due == (if r.got == [] then r.openedAt else r.got[|r.got| - 1].index + 1)
    && (r.got != [] ==> r.got[0].due == r.openedAt)
    && forall k, m :: 0 <= k < |r.got| && m == k + 1 < |r.got| ==> r.got[m].due == r.got[k].index + 1
  }

  /** Nothing is handed out early; a gap is flagged, or was flagged on a copy that faulted. */
  ghost predicate DeliveryOk(d: Delivery, faults: nat) {
    d.due <= d.index && (d.due < d.index <==> d.overrun || d.lost) && (d.lost ==> faults > 0)
  }

  ghost predicate GapsFlagged(r: LogReader) {
    && (forall k :: 0 <= k < |r.got| ==> DeliveryOk(r.got[k], r.faults))
    && r.due <= r.cursor
    && (r.due < r.cursor <==> r.lost || (r.phase.LogTaken? && r.phase.overrun))
    && (r.lost ==> r.faults > 0)
  }

  /** Every skip was forced by more than 256 outstanding entries and lands on the oldest retained one. */
  ghost predicate SkipsForced(r: LogReader) {
    forall k :: 0 <= k < |r.skips| ==>
      r.skips[k].head - r.skips[k].origin > 256 && r.skips[k].target == r.skips[k].head - 256
  }

  /** Delivered and skipped entries account for the whole distance travelled. */
  ghost predicate Conserved(r: LogReader) {
    |r.got| + SkippedTotal(r.skips) == r.cursor - r.openedAt
  }

  ghost predicate ReaderOk(r: LogReader) { Chained(r) && GapsFlagged(r) && SkipsForced(r) && Conserved(r) }

  ghost predicate ReadersOk(l: LogState) { forall f :: f in l.readers ==> ReaderOk(l.readers[f]) }

  lemma PhaseKeepsReader(r: LogReader, p: LogPhase)
    requires ReaderOk(r) && !r.phase.LogTaken? && !p.LogTaken?
    ensures ReaderOk(r.(phase := p))
  {
  }

  lemma TakeKeepsReader(r: LogReader, n: nat)
    requires ReaderOk(r) && !r.phase.LogTaken? && r.cursor < n
    ensures ReaderOk(Take(r, n))
  {
    var r' := Take(r, n);
    if r'.skips != r.skips {
      assert r'.skips[..|r.skips|] == r.skips;
    }
  }

  lemma FaultKeepsReader(r: LogReader)
    requires ReaderOk(r) && r.phase.LogTaken?
    ensures ReaderOk(Fault(r))
  {
    assert forall k :: 0 <= k < |r.got| ==> DeliveryOk(r.got[k], r.faults);
  }

  lemma HandKeepsReader(r: LogReader)
    requires ReaderOk(r) && r.phase.LogTaken?
    ensures ReaderOk(Hand(r))
  {
    var r', n := Hand(r), |r.got|;
    assert forall k :: 0 <= k < n ==> r'.got[k] == r.got[k];
    assert DeliveryOk(r'.got[n], r'.faults);
  }

  lemma PutReader(l: LogState, f: nat, r: LogReader)
    requires ReadersOk(l) && ReaderOk(r)
    ensures ReadersOk(l.(readers := l.readers[f := r]))
  {
  }

  lemma LockKeepsReaders(l: LogState, f: nat)
    requires CursorsOk(l) && ReadersOk(l) && f in l.readers && !l.readers[f].phase.LogTaken?
    ensures ReadersOk(LogLock(l, f).0)
  {
    var r := l.readers[f];
    PhaseKeepsReader(r, LogIdle);
    if r.cursor < |l.log| { TakeKeepsReader(r, |l.log|); }
    PutReader(l, f, LogLock(l, f).0.readers[f]);
  }

  lemma CopyKeepsReaders(l: LogState, f: nat, ok: bool)
    requires CursorsOk(l) && ReadersOk(l) && f in l.readers && l.readers[f].phase.LogTaken?
    ensures ReadersOk(LogCopy(l, f, ok).0)
  {
    HandKeepsReader(l.readers[f]);
    FaultKeepsReader(l.readers[f]);
    PutReader(l, f, LogCopy(l, f, ok).0.readers[f]);
  }

  lemma StepKeepsReaders(l: LogState, e: Event)
    requires CursorsOk(l) && ReadersOk(l)
    ensures ReadersOk(LogStep(l, e).0)
  {
    match e
    case DoBegin(f, count, nonblock) =>
      if f in l.readers && l.readers[f].phase.LogIdle? {
        PhaseKeepsReader(l.readers[f], LogAdmitted(!nonblock));
        PutReader(l, f, l.readers[f].(phase := LogAdmitted(!nonblock)));
      }
    case DoLock(f) =>
      if f in l.readers && l.readers[f].phase.LogAdmitted? { LockKeepsReaders(l, f); }
    case DoCopy(f, ok) =>
      if f in l.readers && l.readers[f].phase.LogTaken? { CopyKeepsReaders(l, f, ok); }
    case DoOpen(f) =>
      if f !in l.readers { PutReader(l, f, LogReader(|l.log|, LogIdle, |l.log|, |l.log|, [], [], false, 0)); }
    case _ =>
  }

  lemma {:induction false} RunKeepsReaders(es: seq<Event>)
    ensures ReadersOk(LogRun(EMPTY_LOG, es).0)
  {
    if es != [] {
      RunKeepsReaders(es[..|es| - 1]);
      StepKeepsReaders(LogRun(EMPTY_LOG, es[..|es| - 1]).0, es[|es| - 1]);
    }
  }

  // ---- what reaches userspace ----

  /** Everything published by a run, in order. */
  function Log(es: seq<Event>): seq<Entry> {
    if es == [] then [] else
      var e := es[|es| - 1];
      Log(es[..|es| - 1]) + if e.DoPublish? then [Normalized(e.entry)] else []
  }

  /** The entries of the publish events of a run, as the driver passed them. */
  function Submitted(es: seq<Event>): seq<Entry> {
    if es == [] then [] else
      var e := es[|es| - 1];
      Submitted(es[..|es| - 1]) + if e.DoPublish? then [e.entry] else []
  }

  /**
   * `got` is what userspace must see of the submitted entry `x`: version 2, 120 bytes, the overrun
   * flag added when entries were skipped, every other flag and every other field as submitted.
   */
  ghost predicate SeenAs(got: Entry, x: Entry, skipped: bool) {
    && got.version == 2 && got.entrySize == 120
    && got.flags.overrun == (x.flags.overrun || skipped)
    && got.flags.hwTs == x.flags.hwTs && got.flags.dropped == x.flags.dropped
    && got == x.(version := got.version, entrySize := got.entrySize, flags := got.flags)
  }

  lemma {:induction false} LogOfSubmitted(es: seq<Event>)
    ensures |Log(es)| == |Submitted(es)|
    ensures forall i :: 0 <= i < |Log(es)| ==> SeenAs(Log(es)[i], Submitted(es)[i], false)
  {
    if es != [] { LogOfSubmitted(es[..|es| - 1]); }
  }

  /** The entries copied to the buffers of file `f` since it was opened. */
  function Received(s: State, es: seq<Event>, f: nat): seq<Entry>
    requires |s.dev.ring| == RING_SIZE
  {
    if es == [] then [] else
      var front, e := es[..|es| - 1], es[|es| - 1];
      var s' := Run(s, front).0;
      if f !in s'.files then []
      else if e.DoCopy? && e.f == f && Step(s', e).1.Delivered? then
        Received(s, front, f) + [Step(s', e).1.entry]
      else Received(s, front, f)
  }

  ghost predicate ReceivedOk(got: seq<Entry>, r: LogReader, log: seq<Entry>) {
    && |got| == |r.got|
    && forall k :: 0 <= k < |got| ==>
         r.got[k].index < |log| && got[k] == Flagged(log[r.got[k].index], r.got[k].overrun)
  }

  lemma {:induction false} LogIsPublished(es: seq<Event>)
    ensures LogRun(EMPTY_LOG, es).0.log == Log(es)
  {
    if es != [] { LogIsPublished(es[..|es| - 1]); }
  }

  lemma {:induction false} ReceivedMatches(s: State, es: seq<Event>, f: nat)
    requires Initial(s) && f in LogRun(EMPTY_LOG, es).0.readers
    ensures ReceivedOk(Received(s, es, f), LogRun(EMPTY_LOG, es).0.readers[f], LogRun(EMPTY_LOG, es).0.log)
  {
    if es != [] {
      var front, e := es[..|es| - 1], es[|es| - 1];
      var l := LogRun(EMPTY_LOG, front).0;
      RingRefinesLog(s, front);
      StepRefines(Run(s, front).0, l, e);
      assert LogRun(EMPTY_LOG, es).0 == LogStep(l, e).0;
      if f in l.readers {
        ReceivedMatches(s, front, f);
        ReceivedStep(l, e, f, Received(s, front, f));
      } else {
        OpenedFresh(l, e, f);
      }
    }
  }

  lemma OpenedFresh(l: LogState, e: Event, f: nat)
    requires CursorsOk(l) && f !in l.readers && f in LogStep(l, e).0.readers
    ensures ReceivedOk([], LogStep(l, e).0.readers[f], LogStep(l, e).0.log)
  {
    assert e == DoOpen(f);
  }

  lemma ReceivedStep(l: LogState, e: Event, f: nat, got: seq<Entry>)
    requires CursorsOk(l) && f in l.readers && f in LogStep(l, e).0.readers
    requires ReceivedOk(got, l.readers[f], l.log)
    ensures var (l', out) := LogStep(l, e);
      ReceivedOk(if e.DoCopy? && e.f == f && out.Delivered? then got + [out.entry] else got, l'.readers[f], l'.log)
  {
    match e
    case DoPublish(x) =>
    case DoCopy(g, ok) => assert CursorOk(l.readers[f], |l.log|, l.dying);
    case _ =>
  }

  lemma {:induction false} IndicesIncrease(r: LogReader, k: nat, m: nat)
    requires ReaderOk(r) && k < m < |r.got|
    ensures r.got[k].index < r.got[m].index
    decreases m
  {
    assert DeliveryOk(r.got[m], r.faults);
    assert r.got[m].due == r.got[m - 1].index + 1;
    if k < m - 1 { IndicesIncrease(r, k, m - 1); }
  }

  /** What file `f` has been told and skipped: the history of the log reader that mirrors it. */
  function History(es: seq<Event>, f: nat): LogReader
    requires f in LogRun(EMPTY_LOG, es).0.readers
  {
    LogRun(EMPTY_LOG, es).0.readers[f]
  }

  /**
   * Every entry copied to a file is, field by field, the entry some publish event submitted: only
   * the version fields are the device's own and the overrun flag is added exactly when the reader
   * was thrown forward. The indices strictly increase and stay below the cursor and the head.
   */
  lemma ReaderSeesLog(s: State, es: seq<Event>, f: nat)
    requires Initial(s) && f in Run(s, es).0.files
    ensures f in LogRun(EMPTY_LOG, es).0.readers
    ensures ReceivedOk(Received(s, es, f), History(es, f), Log(es))
    ensures forall k :: 0 <= k < |Received(s, es, f)| ==>
              var d := History(es, f).got[k];
              d.index < |Submitted(es)| && SeenAs(Received(s, es, f)[k], Submitted(es)[d.index], d.overrun)
    ensures forall k, m :: 0 <= k < m < |History(es, f).got| ==>
              History(es, f).got[k].index < History(es, f).got[m].index
    ensures History(es, f).due <= Run(s, es).0.files[f].tail <= Run(s, es).0.dev.head == |Submitted(es)|
  {
    LogOfSubmitted(es);
    RingRefinesLog(s, es);
    ReceivedMatches(s, es, f);
    LogIsPublished(es);
    RunKeepsReaders(es);
    var r := History(es, f);
    assert FileMatches(Run(s, es).0.files[f], r, Log(es));
    forall k, m | 0 <= k < m < |r.got|
      ensures r.got[k].index < r.got[m].index
    {
      IndicesIncrease(r, k, m);
    }
  }

  /**
   * Overrun accounting. Delivered plus skipped entries is the distance travelled since open,
   * skips are forced and land on the oldest retained entry, a flag always means a gap, and a
   * gap goes unflagged exactly when the copy that carried its flag had faulted.
   */
  lemma OverrunAccounting(s: State, es: seq<Event>, f: nat)
    requires Initial(s) && f in Run(s, es).0.files
    ensures f in LogRun(EMPTY_LOG, es).0.readers
    ensures var r := History(es, f);
      && |Received(s, es, f)| + SkippedTotal(r.skips) == Run(s, es).0.files[f].tail - r.openedAt
      && SkipsForced(r) && Chained(r)
      && forall k :: 0 <= k < |r.got| ==>
           && (r.got[k].overrun ==> r.got[k].due < r.got[k].index)
           && ((r.got[k].overrun <==> r.got[k].due < r.got[k].index) <==> !r.got[k].lost || r.got[k].overrun)
           && (r.faults == 0 ==> !r.got[k].lost)
  {
    ReaderSeesLog(s, es, f);
    RunKeepsReaders(es);
    RingRefinesLog(s, es);
    assert FileMatches(Run(s, es).0.files[f], History(es, f), LogRun(EMPTY_LOG, es).0.log);
    assert ReaderOk(History(es, f));
  }

  function Publishes(xs: seq<Entry>): seq<Event> { seq(|xs|, k requires 0 <= k < |xs| => DoPublish(xs[k])) }

  function AllNormalized(xs: seq<Entry>): seq<Entry> { seq(|xs|, k requires 0 <= k < |xs| => Normalized(xs[k])) }

  /** An uninterrupted non-blocking read. */
  function ReadBy(f: nat, copied: bool): seq<Event> { [DoBegin(f, ENTRY_SIZE, true), DoLock(f), DoCopy(f, copied)] }

  lemma RunPush(s: State, es: seq<Event>, e: Event)
    requires |s.dev.ring| == RING_SIZE
    ensures var r, t := Run(s, es), Step(Run(s, es).0, e); Run(s, es + [e]) == (t.0, r.1 + [t.1])
  {
    assert (es + [e])[..|es|] == es;
  }

  lemma RunRead(s: State, es: seq<Event>, f: nat, copied: bool)
    requires |s.dev.ring| == RING_SIZE
    ensures var t := Run(s, es).0;
      var t1 := Step(t, DoBegin(f, ENTRY_SIZE, true)).0;
      var t2 := Step(t1, DoLock(f)).0;
      var r := Run(s, es + ReadBy(f, copied));
      r.0 == Step(t2, DoCopy(f, copied)).0 && r.1[|es| + 2] == Step(t2, DoCopy(f, copied)).1
  {
    var e1, e2, e3 := DoBegin(f, ENTRY_SIZE, true), DoLock(f), DoCopy(f, copied);
    RunPush(s, es, e1);
    RunPush(s, es + [e1], e2);
    RunPush(s, es + [e1] + [e2], e3);
    assert es + ReadBy(f, copied) == es + [e1] + [e2] + [e3];
  }

  lemma {:induction false} AfterPublishes(s: State, xs: seq<Entry>, f: nat)
    requires Initial(s)
    ensures var t := Run(s, [DoOpen(f)] + Publishes(xs)).0;
      DeviceMatches(t.dev, AllNormalized(xs), false) && f in t.files && t.files[f] == File(0, Idle)
  {
    if xs == [] {
      assert [DoOpen(f)] + Publishes(xs) == [] + [DoOpen(f)];
      RunPush(s, [], DoOpen(f));
    } else {
      var m := |xs| - 1;
      AfterPublishes(s, xs[..m], f);
      assert [DoOpen(f)] + Publishes(xs) == [DoOpen(f)] + Publishes(xs[..m]) + [DoPublish(xs[m])];
      RunPush(s, [DoOpen(f)] + Publishes(xs[..m]), DoPublish(xs[m]));
      PublishMatches(Run(s, [DoOpen(f)] + Publishes(xs[..m])).0.dev, AllNormalized(xs[..m]), false, xs[m]);
      assert AllNormalized(xs) == AllNormalized(xs[..m]) + [Normalized(xs[m])];
    }
  }

  /**
   * The unflagged gap is real: open a file on a fresh device, publish any more than 256 entries,
   * let one read fault and the next succeed. What is delivered is entry |xs| - 256 as it was
   * published: the entries before it are skipped and nothing says so.
   */
  lemma FaultLosesFlag(s: State, xs: seq<Entry>, f: nat)
    requires Initial(s) && |xs| > 256
    ensures var es := [DoOpen(f)] + Publishes(xs) + ReadBy(f, false) + ReadBy(f, true);
      var out := Run(s, es).1[|es| - 1];
      out.Delivered? && SeenAs(out.entry, xs[|xs| - 256], false)
  {
    var es := [DoOpen(f)] + Publishes(xs);
    AfterPublishes(s, xs, f);
    RunRead(s, es, f, false);
    RunRead(s, es + ReadBy(f, false), f, true);
    var t, i := Run(s, es).0, |xs| - RING_SIZE;
    FaultedRead(t, f);
    GoodRead(Run(s, es + ReadBy(f, false)).0, f);
    assert t.dev.ring[i % RING_SIZE] == AllNormalized(xs)[i];
  }

  /** A read from more than 256 entries behind whose copy faults: the cursor catches up. */
  lemma FaultedRead(s: State, f: nat)
    requires |s.dev.ring| == RING_SIZE && !s.dev.dying
    requires f in s.files && s.files[f].phase.Idle? && s.dev.head - s.files[f].tail > RING_SIZE
    ensures var s3 := Step(Step(Step(s, DoBegin(f, ENTRY_SIZE, true)).0, DoLock(f)).0, DoCopy(f, false)).0;
      s3.dev == s.dev && f in s3.files && s3.files[f] == File(s.dev.head - RING_SIZE, Idle)
  {
  }

  /** A read from exactly 256 entries behind: the oldest entry, unflagged. */
  lemma GoodRead(s: State, f: nat)
    requires |s.dev.ring| == RING_SIZE && !s.dev.dying && s.dev.head > RING_SIZE
    requires f in s.files && s.files[f] == File(s.dev.head - RING_SIZE, Idle)
    ensures Step(Step(Step(s, DoBegin(f, ENTRY_SIZE, true)).0, DoLock(f)).0, DoCopy(f, true)).1
         == Delivered(s.dev.ring[(s.dev.head - RING_SIZE) % RING_SIZE])
  {
  }

  /** A read that came through the wait queue never reports that there is nothing to read. */
  lemma BlockingReadNeverAgain(s: State, es: seq<Event>, f: nat)
    requires Initial(s) && f in Run(s, es).0.files && Run(s, es).0.files[f].phase == Admitted(true)
    ensures Step(Run(s, es).0, DoLock(f)).1 != Failed(EAGAIN)
  {
    RingRefinesLog(s, es);
    var l := LogRun(EMPTY_LOG, es).0;
    assert FileMatches(Run(s, es).0.files[f], l.readers[f], l.log);
    assert CursorOk(l.readers[f], |l.log|, l.dying);
  }

  /** A read that nothing interrupts: the machine's steps until one of them answers. */
  function ReadSteps(s: State, f: nat, count: nat, nonblock: bool, copied: bool): (State, Output)
    requires |s.dev.ring| == RING_SIZE
  {
    var (s1, o1) := Step(s, DoBegin(f, count, nonblock));
    if o1 != Silent then (s1, o1) else
      var (s2, o2) := Step(s1, DoLock(f));
      if o2 != Silent then (s2, o2) else Step(s2, DoCopy(f, copied))
  }

  /**
   * How a read that nothing interrupts is answered, exactly, in the order of the source's tests,
   * and where it leaves the cursor: a faulting copy keeps the cursor that the lock caught up.
   */
  lemma ReadAnswers(s: State, f: nat, count: nat, nonblock: bool, copied: bool)
    requires |s.dev.ring| == RING_SIZE && f in s.files && s.files[f].phase.Idle? && s.files[f].tail <= s.dev.head
    ensures var (s', o) := ReadSteps(s, f, count, nonblock, copied);
      var tail, head := s.files[f].tail, s.dev.head;
      var ready := count >= 120 && !s.dev.dying && tail < head;
      && (o == Failed(EINVAL) <==> count < 120)
      && (o == EndOfFile <==> count >= 120 && s.dev.dying)
      && (o == Blocked <==> count >= 120 && !s.dev.dying && tail == head && !nonblock)
      && (o == Failed(EAGAIN) <==> count >= 120 && !s.dev.dying && tail == head && nonblock)
      && (o == Failed(EFAULT) <==> ready && !copied)
      && (o.Delivered? <==> ready && copied)
      && s'.dev == s.dev && f in s'.files && s'.files[f].phase.Idle?
      && s'.files[f].tail == (if ready then Max(tail, head - 256) + (if copied then 1 else 0) else tail)
  {
  }

  /** A file that is opened starts behind everything published so far. */
  lemma OpensAtHead(s: State, es: seq<Event>, f: nat)
    requires Initial(s) && f !in Run(s, es).0.files
    ensures var t := Run(s, es + [DoOpen(f)]).0; f in t.files && t.files[f].tail == |Submitted(es)|
    ensures f in LogRun(EMPTY_LOG, es + [DoOpen(f)]).0.readers
    ensures History(es + [DoOpen(f)], f).openedAt == |Submitted(es)|
  {
    RunPush(s, es, DoOpen(f));
    StatsExact(s, es);
    RingRefinesLog(s, es);
    LogIsPublished(es);
    LogOfSubmitted(es);
    assert (es + [DoOpen(f)])[..|es|] == es;
  }

  lemma ReadStepsAre(d: Device, tail: nat, count: nat, nonblock: bool, copied: bool)
    requires |d.ring| == RING_SIZE
    ensures var s, first := State(d, map[0 := File(tail, Idle)]), BeginOutput(count, nonblock, d.dying, d.head == tail);
      ReadSteps(s, 0, count, nonblock, copied) ==
      if first != Silent then (s, first) else
        match LockRead(d, tail)
        case Eof => (s, EndOfFile)
        case Again => (s, Failed(EAGAIN))
        case Got(t, e) =>
          (State(d, map[0 := File(if copied then t + 1 else t, Idle)]), if copied then Delivered(e) else Failed(EFAULT))
  {
    var s := State(d, map[0 := File(tail, Idle)]);
    var s1 := State(d, map[0 := File(tail, Admitted(!nonblock))]);
    assert s.files[0 := File(tail, Admitted(!nonblock))] == s1.files;
    assert s1.files[0 := File(tail, Idle)] == s.files;
    match LockRead(d, tail)
    case Got(t, e) => {
      var s2 := State(d, map[0 := File(t, Copying(e))]);
      assert s1.files[0 := File(t, Copying(e))] == s2.files;
      assert s2.files[0 := File(t + 1, Idle)] == map[0 := File(t + 1, Idle)];
      assert s2.files[0 := File(t, Idle)] == map[0 := File(t, Idle)];
    }
    case _ =>
  }

  // ---- the driver's objects ----

  /** `struct vpipe_meta_dev`. */
  class MetaDevice {
    const ring: array<Entry>
    var head: nat
    var published: nat
    var dropped: nat
    var dying: bool

    ghost predicate Valid() { ring.Length == RING_SIZE }

    ghost function Value(): Device
      reads this, ring
    {
      Device(ring[..], head, published, dropped, dying)
    }

    constructor (blank: Entry)
      ensures Valid() && fresh(ring)
      ensures Initial(State(Value(), map[]))
    {
      ring := new Entry[RING_SIZE](_ => blank);
      head, published, dropped, dying := 0, 0, 0, false;
    }

    method Publish(src: Entry)
      requires Valid()
      modifies this, ring
      ensures Value() == AfterPublish(old(Value()), src)
    {
      var slot := head % RING_SIZE;
      head := head + 1;
      ring[slot] := src;
      ring[slot] := ring[slot].(version := META_VERSION);
      ring[slot] := ring[slot].(entrySize := ENTRY_SIZE);
      published := published + 1;
      if head > RING_SIZE {
        dropped := head - RING_SIZE;
      }
    }
  }

  /** `struct vpipe_meta_file`: one open file and its cursor. */
  class MetaFile {
    var tail: nat

    constructor Open(g: MetaDevice)
      ensures tail == g.head
    {
      tail := g.head;
    }

    /** The locked section of a read; it may already move the cursor. */
    method ReadLocked(g: MetaDevice) returns (r: LockResult)
      requires g.Valid()
      modifies this
      ensures r == LockRead(g.Value(), old(tail))
      ensures tail == if r.Got? then r.tail else old(tail)
    {
      if g.dying { return Eof; }
      if tail == g.head { return Again; }
      var oldest := if g.head > RING_SIZE then g.head - RING_SIZE else 0;
      var overrun := false;
      if tail < oldest {
        tail := oldest;
        overrun := true;
      }
      var entry := g.ring[tail % RING_SIZE];
      if overrun {
        entry := entry.(flags := entry.flags.(overrun := true));
      }
      return Got(tail, entry);
    }

    /** After the lock: only a successful copy advances the cursor. */
    method CopyOut(entry: Entry, copied: bool) returns (out: Output)
      modifies this
      ensures copied ==> out == Delivered(entry) && tail == old(tail) + 1
      ensures !copied ==> out == Failed(EFAULT) && tail == old(tail)
    {
      if !copied { return Failed(EFAULT); }
      tail := tail + 1;
      return Delivered(entry);
    }

    /** `vpipe_meta_read`; `copied` is whether `copy_to_user` succeeds. */
    method Read(g: MetaDevice, count: nat, nonblock: bool, copied: bool) returns (out: Output)
      requires g.Valid()
      modifies this
      ensures ReadSteps(State(g.Value(), map[0 := File(old(tail), Idle)]), 0, count, nonblock, copied)
           == (State(g.Value(), map[0 := File(tail, Idle)]), out)
    {
      ReadStepsAre(g.Value(), tail, count, nonblock, copied);
      if count < ENTRY_SIZE { return Failed(EINVAL); }
      if !nonblock && !g.dying && g.head == tail { return Blocked; }
      var r := ReadLocked(g);
      match r
      case Eof => out := EndOfFile;
      case Again => out := Failed(EAGAIN);
      case Got(_, entry) => out := CopyOut(entry, copied);
    }
  }
}
