/** kmod/vpipe-source.c: a context's producer instance and the stamp it puts on each buffer. */
module Source {
  import opened Base
  import Gradient
  import P = Producers

  const BACKEND_NONE := 0
  const BACKEND_FIXTURE := 1
  const BACKEND_SYNTHETIC := 2
  const BACKEND_VCAM := 3

  /** `struct vpipe_frame_desc` */
  datatype FrameDesc =
    FrameDesc(sourceTs: nat, sequence: u32, backend: nat, byteused: nat, dropped: bool, shape: Gradient.Shape)

  function EmptyDesc(g: Gradient.Shape): FrameDesc { FrameDesc(0, 0, BACKEND_NONE, 0, false, g) }

  /**
   * `struct vpipe_source`. `id` tells instances apart and `stamped` counts successful calls;
   * both are history and nothing depends on them.
   */
  datatype Instance = Instance(id: nat, backend: nat, producer: P.Producer, seqNo: u32, stamped: nat)

  /** `vpipe_source_create`; all three backends are registered at module load. */
  function Create(id: nat, backend: nat): Option<Instance> {
    if backend == BACKEND_FIXTURE then Some(Instance(id, backend, P.Fixture, 0, 0))
    else if backend == BACKEND_SYNTHETIC then Some(Instance(id, backend, P.Synthetic(None), 0, 0))
    else if backend == BACKEND_VCAM then Some(Instance(id, backend, P.Vcam(None), 0, 0))
    else None
  }

  datatype Stamped = Stamped(src: Instance, desc: FrameDesc, plane: P.Plane)

  /** `vpipe_source_next_frame`: on failure the descriptor keeps only the geometry hints. */
  function Next(src: Instance, g: Gradient.Shape, plane: P.Plane, mapped: bool, now: nat): (r: Stamped)
    requires P.Writes(src.producer) && !P.NoGeometry(g) ==> P.CallFits(g, plane)
    ensures |r.plane| == |plane|
  {
    var (p, o) := P.NextFrame(src.producer, g, plane, mapped);
    match o
    case Refused(_) => Stamped(src.(producer := p), EmptyDesc(g), plane)
    case Made(f) =>
      Stamped(src.(producer := p, seqNo := P.Inc32(src.seqNo), stamped := src.stamped + 1),
              FrameDesc(if f.ts == 0 then now else f.ts, src.seqNo, src.backend, f.byteused, f.dropped, g),
              f.plane)
  }

  /** Instance numbers run 0, 1, 2, ... modulo 2^32. */
  ghost predicate Numbered(src: Instance) {
    src.seqNo == src.stamped % TWO32 && BACKEND_NONE < src.backend <= BACKEND_VCAM
  }

  /** The call goes through: the fixture's always, another's when it runs, holds the frame and finds the plane. */
  predicate Makes(p: P.Producer, g: Gradient.Shape, mapped: bool) {
    p.Fixture? || (P.Writes(p) && !P.NoGeometry(g) && P.HoldsFrame(p, g) && mapped)
  }

  /** A call stamps the next number exactly when it goes through, and otherwise consumes none. */
  lemma StampNumbers(src: Instance, g: Gradient.Shape, plane: P.Plane, mapped: bool, now: nat)
    requires Numbered(src) && (P.Writes(src.producer) && !P.NoGeometry(g) ==> P.CallFits(g, plane))
    ensures var r := Next(src, g, plane, mapped, now);
      && Numbered(r.src) && r.src.id == src.id && r.src.backend == src.backend
      && r.src.producer.Fixture? == src.producer.Fixture? && P.Writes(r.src.producer) == P.Writes(src.producer)
      && (r.desc.backend != BACKEND_NONE <==> Makes(src.producer, g, mapped))
      && (r.desc.backend == BACKEND_NONE <==> r.src.stamped == src.stamped)
      && (r.desc.backend == BACKEND_NONE ==> r.src == src && r.plane == plane)
      && (r.desc.backend != BACKEND_NONE ==>
            r.src.stamped == src.stamped + 1 && r.desc.backend == src.backend && r.desc.sequence == src.stamped % TWO32)
  {
    assert (src.stamped % TWO32 + 1) % TWO32 == (src.stamped + 1) % TWO32;
  }

  /**
   * What else a call that goes through puts on the buffer: the vcam's own time where it has one and
   * the clock's otherwise; with the fixture the plane stays as userspace wrote it.
   */
  lemma StampTime(src: Instance, g: Gradient.Shape, plane: P.Plane, mapped: bool, now: nat)
    requires (P.Writes(src.producer) && !P.NoGeometry(g) ==> P.CallFits(g, plane)) && Makes(src.producer, g, mapped)
    ensures var r := Next(src, g, plane, mapped, now);
      && r.desc.shape == g
      && (src.producer.Vcam? ==>
            var v := src.producer.priv.value;
            var t := (v.baseTs + v.counters.framesProduced * v.interval) % 0x1_0000_0000_0000_0000;
            r.desc.sourceTs == if t == 0 then now else t)
      && (!src.producer.Vcam? ==> r.desc.sourceTs == now)
      && (src.producer.Fixture? ==> r.plane == plane && !r.desc.dropped && r.desc.byteused == 0)
      && P.NextFrame(src.producer, g, plane, mapped).1
         == P.Made(P.Frame(r.plane, if src.producer.Vcam? then P.VcamTs(src.producer.priv.value) else 0,
                           r.desc.byteused, r.desc.dropped))
  {
  }
}
