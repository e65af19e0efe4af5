# vpipe verification

A Dafny model of `vpipe`, a small V4L2 mem2mem driver with a metadata sideband and userspace
reference tools, and proofs about it. A frame is produced, snapshotted when its OUTPUT buffer
reaches the driver, processed by a job, described by a metadata entry, dequeued on CAPTURE and checked
by userspace; each stage has its own module and the last one, `Runner`, puts them together.

| module | what it holds |
|---|---|
| `Base` | fixed-width integers, `Option`, error codes, `clamp_t` |
| `Crc32` | CRC-32: bit-at-a-time reference, table-driven loop, burst detection, affinity |
| `CrcDivision`, `CrcCheck` | what the register holds: a remainder modulo the CRC-32 polynomial; the check value |
| `Cv` | both ROI clamps, copy and threshold loops on arrays, the userspace reference |
| `Pgm` | the PGM writer and the stream reader |
| `Gradient` | the self-describing pattern: filling and recognising it |
| `Producers` | one call of each frame producer on values, drop cadence, vcam timeline |
| `Vcam` | producer objects, framebuffer reference counting, copy against shared transport |
| `Source` | a context's source instance and the stamp it puts on a buffer |
| `Meta` | the metadata ring as a step system, the log it refines, the driver's objects |
| `M2m` | the mem2mem driver as a state machine over its callbacks, for any number of contexts |
| `ExactlyOnce`, `Jobs`, `Provenance`, `Snapshot`, `Geometry` | properties of every run of `M2m` |
| `Trace` | runs of `M2m` read from their events: last writes, formats, backends, and the three events behind an entry |
| `Driver` | the callbacks as objects whose fields change, and a whole run on them, proved to be the machine's run |
| `Runner` | `run_one` end to end: driver, metadata, checksums, pattern, latency, occupancy |

`dafny verify dfyconfig.toml` verifies everything.

## Assumptions about the framework

These are taken as the contract of the V4L2 and vb2 code around the driver, which is not part
of this model.

- Ready queues and done lists are first-in first-out.
- A job runs only when both queues stream and both ready queues hold a buffer.
- `buf_finish` runs once for each buffer that leaves the driver. At STREAMOFF buffers leave in index order.
- Buffers queued before STREAMON reach `buf_queue` just before `start_streaming`.
- PREPARE_BUF (kmod/vpipe-m2m.c:684) runs `buf_prepare`, and QBUF skips it for a buffer that is already prepared. A prepared
  buffer keeps its memory; STREAMOFF and DQBUF end the preparation.
- CREATE_BUFS (kmod/vpipe-m2m.c:679) adds buffers at the end, also while streaming, when `queue_setup` finds them large enough.
- Callbacks are serialised; `start_streaming` succeeds; OUTPUT is stopped before a context is released.
- At most one read is in flight per open metadata file, because the cursor moves outside the lock.
- The kernel's `~crc32_le(~0, ...)` is the CRC-32 of section 8 of RFC 1952.
- `fscanf("%u")` behaves as in glibc: blanks, optional sign, digits, saturation at 2^64 - 1, truncation to 32 bits.
- Planes do not alias: no two queued buffers, and no buffer and the vcam framebuffer, share memory. Both queues accept DMABUF
  (kmod/vpipe-m2m.c:272,285), so userspace could break this. `VcamSource.NextFrame` and `Lockstep` are the exception: they cover the shared framebuffer.
- Userspace does not write a plane while the driver holds its buffer.
- The clock is monotone where times are compared (`TimelineKept` and module `Runner`). Ring head and device sequence stay below 2^64.

## Findings

- A copy that faults keeps the caught-up cursor but loses the overrun flag, so a later entry can follow a gap unflagged.
  `FaultLosesFlag` gives the run, for any more than 256 entries; `OverrunAccounting` says exactly when a gap goes unflagged.
- `vpipe_s_fmt` tests only the queue it was called on but sets both formats. `CrossQueueChangeFaults` gives a run of nine
  calls in which a job then reads past its OUTPUT page, and `PreparedFillFaults` a run of seven in which a producer writes past the
  page of a buffer that was prepared for the old format. `GeometrySafe` says exactly which runs are safe: a change that does not fit
  the planes waiting on the other queue, prepared ones included, always leaves a fault within reach (`UnfitCanFault`), and one that
  fits never does.
  Testing both queues would be enough (`BothQueuesTested`).
- A context's published sequence numbers can come out of order at STREAMOFF (`StreamOffCanReorder`); `StreamOffOrder` says exactly when
  for one stream-off and `PublishedInOrder` for whole runs.
- The vcam parameter is documented as dropping every N-th frame; the code also drops frame 0, so it drops ceil(k / N) of k frames
  where synthetic drops floor(k / N) (`DropCount`).
- A negative ROI origin is moved to 0 with its extent kept (`NegativeOriginShifts`), so the clamp need not be the intersection of
  request and frame: `ClampKeepsExtent` gives a request, and `ClampIsIntersection` says exactly which requests select it. This is
  about the helper for every signed request: the ROI controls have minimum 0 (kmod/vpipe-m2m.c:364,375) and the reference program
  passes 0, 0, so no caller in the repository reaches a negative origin.
- The repository's own README.md:54-57 promises that controls are snapshotted at QBUF. The code snapshots in `buf_queue`, so a buffer queued before
  STREAMON takes the controls written in between (`LateControlSeen`); `QbufSnapshotExactly` says exactly when the promise holds.

## Model

| member | source | states |
|---|---|---|
| Crc32.BurstDetected | user/vpipe-common.c:187-199 | two different messages of one length that agree outside some 32 consecutive bits, aligned or not, have different checksums |
| Crc32.FourByteBurstDetected | user/vpipe-common.c:187-199 | any change confined to four consecutive bytes changes the checksum |
| Crc32.CrcAffine | user/vpipe-common.c:187-199 | the checksum of the bytewise xor of three messages of one length is the xor of their checksums |
| Crc32.XorBytes | user/vpipe-common.c:187-199 | bytewise xor of three messages, as xor of their message bits |
| Crc32.TableStep | user/vpipe-common.c:195-196 | one table lookup step leaves the same register as feeding the byte's eight bits to the bitwise division |
| Crc32.EightShifts | user/vpipe-common.c:175-181 | eight register steps look only at the low byte and shift the rest down, which is why 256 entries suffice |
| Crc32.ShiftNInjective | user/vpipe-common.c:175-180 | any number of register steps is injective on the 32-bit register |
| Crc32.WindowInjective | user/vpipe-common.c:195-196 | from one register, different messages of at most 32 bits lead to different registers |
| Crc32.SuffixInjective | user/vpipe-common.c:195-196 | different registers stay different under any common continuation |
| Crc32.FeedIsXorShift | user/vpipe-common.c:171-182 | feeding up to 32 bits one at a time is one xor followed by that many register steps |
| CrcDivision.PolyIsDivisor | user/vpipe-common.c:177-178 | the constant 0xedb88320, read from the low bit, is x^32 + x^26 + x^23 + x^22 + x^16 + x^12 + x^11 + x^10 + x^8 + x^7 + x^5 + x^4 + x^2 + x + 1 without its leading power |
| CrcDivision.DivisionLaw | user/vpipe-common.c:187-199 | for every initial register and every bit message, the message times x^32 plus the register times x^length is the quotient times that polynomial plus the final register |
| CrcDivision.RemainderUnique | user/vpipe-common.c:187-199 | quotient and remainder of that division are unique |
| CrcDivision.ChecksumIsRemainder | user/vpipe-common.c:187-199 | the checksum of every byte sequence is the complement of the one remainder of the message, low bit of each byte first, times x^32 with 32 leading ones added, modulo the CRC-32 polynomial |
| CrcCheck.CheckValue | user/vpipe-common.c:187-199 | the text 123456789 has the checksum 0xcbf43926 |
| Crc32.Crc32Table.Init | user/vpipe-common.c:164-185 | afterwards every slot holds eight register steps of its index; a second call changes nothing |
| Crc32.Crc32Table.Checksum | user/vpipe-common.c:187-199 | the table-driven loop returns the bitwise checksum of every byte sequence, the remainder of ChecksumIsRemainder |
| Cv.KernelClamp | kmod/vpipe-cv.c:13-38 | the clamped rectangle lies inside the frame for every signed 32-bit request |
| Cv.ClampsAgree | user/vpipe-common.c:405-423 | the reference's unsigned, wrapping clamp selects the same rectangle as the kernel's 64-bit one for every request |
| Cv.ClampIsIntersection | kmod/vpipe-cv.c:21-37 | for every signed request: the clamp selects exactly the pixels common to request and frame if and only if the request has an extent and lies past the right or bottom edge or, on both axes, starts at a non-negative coordinate or reaches the far edge |
| Cv.ClampKeepsExtent | kmod/vpipe-cv.c:29-32 | a 4x4 request that starts two columns left of a 10x10 frame selects four columns, not the two it shares with the frame |
| Cv.NegativeOriginShifts | kmod/vpipe-cv.c:29-32 | a negative origin is moved to 0 and the requested extent is kept, not trimmed |
| Cv.ReclampIdentity | kmod/vpipe-cv.c:21-37 | clamping twice changes nothing exactly when the first result is non-empty |
| Cv.EmptyExactly | kmod/vpipe-cv.c:21-37 | the result is empty exactly for a positive request whose origin is at or beyond the right or bottom edge |
| Cv.NoExtentSelectsFrame | kmod/vpipe-cv.c:21-27 | the whole frame is selected exactly without a request, for one without extent, or for one that covers the frame |
| Cv.CopyFrame | kmod/vpipe-cv.c:40-48 | the array loop copies the frame and keeps every other destination byte, for any strides |
| Cv.ThresholdFrame | kmod/vpipe-cv.c:50-85 | the nested loops leave the thresholded plane; white counts the ROI pixels above the threshold and white + black is the ROI area |
| Cv.Process | kmod/vpipe-cv.c:87-111 | dispatches on the algorithm, fails exactly for other ids and then leaves the destination alone |
| Cv.Processed | kmod/vpipe-cv.c:87-111 | a job succeeds exactly for the two known algorithms and keeps the plane's length |
| Cv.ProcessedPixel | kmod/vpipe-cv.c:60-80 | each frame pixel comes from the source; under algorithm 1 and inside the clamped ROI it becomes 255 above the threshold and 0 otherwise |
| Cv.PaddingUntouched | kmod/vpipe-cv.c:44-47 | row padding and bytes after the frame are never written |
| Cv.CountsPartitionRoi | kmod/vpipe-cv.c:74-84 | value0 is the number of ROI pixels above the threshold, value1 the number of the others, and together they are the ROI area |
| Cv.ReportedResult | kmod/vpipe-cv.c:87-111 | algorithms 0 and 1 and no others succeed; both report status 0 and the clamped ROI; a copy reports no counts and a threshold the whole ROI |
| Cv.ThresholdReference | user/vpipe-common.c:385-434 | the reference loop thresholds exactly the pixels inside its bounds and copies the rest |
| Cv.KernelMatchesReference | user/vpipe-common.c:381-434 | kernel output equals reference output byte for byte for every frame up to 4096x4096, every ROI, every threshold, whatever the destination held |
| Pgm.Stream.SkipSpaceAndUnget | user/vpipe-common.c:268-281 | the do loop with its nested comment loop leaves the stream at the first byte outside white space and comments |
| Pgm.Stream.ReadPgm | user/vpipe-common.c:286-341 | the stream reader computes the parse of the remaining bytes, including every refusal |
| Pgm.ReadsAnyLayout | user/vpipe-common.c:299-338 | any white space and newline-terminated comments at the two skip points, any blanks between the dimensions, any one non-digit byte after maxval and any trailing bytes give the same image; too few pixel bytes are refused |
| Pgm.RoundTrip | user/vpipe-common.c:243-266 | reading what was written, with any bytes appended, returns the image, whatever its pixel bytes look like |
| Pgm.WrittenBytes | user/vpipe-common.c:243-266 | the header byte for byte |
| Pgm.RefusesMagic | user/vpipe-common.c:299-302 | a file that does not begin with P5 is refused |
| Pgm.RefusesHeader | user/vpipe-common.c:306-324 | a side outside 1..4096 or a maximum other than 255 is refused, in any layout and whatever follows |
| Pgm.SkippedBytes | user/vpipe-common.c:268-281 | the six white-space bytes and a comment from # to its newline are skipped, anything else stops the skipping |
| Pgm.ScanPrinted | user/vpipe-common.c:306 | a printed number read after any white space is itself and stops at the first non-digit |
| Pgm.ScanAnyNumber | user/vpipe-common.c:306 | any printed number, signed or not, is cut off at 2^64 - 1, negated modulo 2^64 and stored modulo 2^32 |
| Pgm.SkipGap | user/vpipe-common.c:268-281 | skipping consumes any mixture of white space and complete comments and nothing more |
| Pgm.WriteDiff | user/vpipe-common.c:349-379 | refuses images of different sizes, otherwise writes the pixel distances |
| Pgm.DiffZeroIffEqual | user/vpipe-common.c:367-374 | the written diff reads back as the distance of every two pixels, all zero exactly when the two images are equal |
| Gradient.Fill | kmod/vpipe-vcam.c:82-95 | paints the pattern over the frame, keeps padding; the stamp in pixel 0 changes nothing |
| Gradient.StampIsFirstPixel | kmod/vpipe-vcam.c:94 | pixel 0 of the pattern already is the offset's low byte |
| Gradient.PatternPixels | user/vpipe-vcam-runner.c:149-168 | a frame is the pattern for an offset exactly when every pixel is column plus row plus offset modulo 256 |
| Gradient.FilledPattern | kmod/vpipe-vcam.c:82-95 | painting leaves the pattern, and row padding and bytes after the frame as they were |
| Gradient.Verify | user/vpipe-vcam-runner.c:149-168 | accepts a frame exactly when some 32-bit offset generates it, wrap-around included |
| Gradient.NotPattern | user/vpipe-vcam-runner.c:151-164 | a row that contradicts the offset in pixel 0 contradicts every offset |
| Producers.DropCadence | kmod/vpipe-vcam.c:288-303 | after k < 2^32 calls the frame count is k, drops are exactly the calls at multiples of N, and the pattern offset is the number of frames not dropped |
| Producers.DropCount | kmod/vpipe-synthetic.c:92-98 | synthetic has dropped floor(k / N) of k frames and vcam ceil(k / N) |
| Producers.VcamFrame | kmod/vpipe-vcam.c:263-305 | the k-th frame is stamped base + k * interval dropped or not, is dropped exactly at multiples of N, and otherwise is the pattern numbered by the undropped frames before it |
| Producers.SyntheticFrame | kmod/vpipe-synthetic.c:75-106 | the k-th frame is dropped exactly when k + 1 is a multiple of N and then leaves the plane alone; otherwise it is the pattern numbered by the undropped frames before it, with every byte outside its pixels kept |
| Producers.SyntheticStream | kmod/vpipe-synthetic.c:40-106 | from start, with the module's own drop parameter, any number of calls later: the next call makes that frame |
| Producers.VcamStream | kmod/vpipe-vcam.c:207-305 | from start at a given time, any number k of calls later: the next frame is stamped start + k * (10^9 / fps), none of it when fps is 0, with the module's own drop parameter, the pattern, the bytes used, and the bytes after the frame kept |
| Producers.PageAlignCovers | kmod/vpipe-vcam.c:63-80 | the framebuffer size is the least multiple of 4096 that holds the image |
| Producers.RefusedExactly | kmod/vpipe-vcam.c:263-305 | a backend call fails with -EINVAL exactly when the producer is stopped, has no geometry or cannot hold the frame, with -EFAULT exactly when only the plane's address is missing, and then changes nothing; otherwise one more frame is counted and a dropped one leaves the plane alone |
| Vcam.LifeStep | kmod/vpipe-vcam.c:188-249 | every start, stop, export, release and destroy keeps count = producer reference + open exports, so no put underflows |
| Vcam.LifeRun | kmod/vpipe-vcam.c:307-338 | the conservation law holds after every sequence of these events |
| Vcam.LifeOfEvents | kmod/vpipe-vcam.c:188-338 | after every sequence of events: as many framebuffers as starts of a source that did not run, the last current exactly while the source runs, and on each as many open exports as succeeded while it was current less the releases that found one open |
| Vcam.FreedExactlyOnce | kmod/vpipe-vcam.c:55-61 | from the events alone: a framebuffer is freed exactly once, and exactly when the source that held it was stopped, destroyed or started anew and every successful export of it has been closed; its count is what is left of those |
| Vcam.SourceLife.Execute | kmod/vpipe-vcam.c:188-338 | any sequence of these events on the source and framebuffer objects, with a non-zero image size, ends with the counts, frees and open exports of the event system, so the laws above are about the objects |
| Vcam.SecondStopHarmless | kmod/vpipe-source.c:64-71 | the stop that destroying a source repeats changes nothing |
| Vcam.Framebuffer.constructor | kmod/vpipe-vcam.c:63-80 | a new framebuffer is page aligned, zeroed and holds one reference |
| Vcam.VcamSource.Start | kmod/vpipe-vcam.c:207-235 | refuses a zero image size, otherwise starts all counters and a new framebuffer |
| Vcam.VcamSource.Stop | kmod/vpipe-vcam.c:237-249 | drops exactly the producer's reference, once |
| Vcam.VcamSource.ExportDmabuf | kmod/vpipe-vcam.c:307-338 | a successful export adds one reference, a failed one none |
| Vcam.VcamSource.NextFrame | kmod/vpipe-vcam.c:263-305 | both error codes in the source's order, leaving everything unchanged; otherwise one call on the object equals one call on values, and with the shared framebuffer as plane it holds the same pattern |
| Vcam.SyntheticSource.NextFrame | kmod/vpipe-synthetic.c:75-106 | both error codes, leaving everything unchanged; otherwise one call on the object equals one call on values |
| Vcam.Lockstep | kmod/vpipe-vcam.c:296-303 | with one frame in flight every undropped frame reaches CAPTURE as the pattern numbered by the undropped frames before it, whether the OUTPUT array is its own memory or the framebuffer itself |
| Vcam.RefillOverwrites | kmod/vpipe-vcam.c:296-299 | with a second fill before the first frame is taken, the first pattern survives exactly when both offsets agree in the low byte |
| Vcam.CopyKeepsPattern | kmod/vpipe-cv.c:40-48 | an ALGO_NONE job carries a pattern from OUTPUT to CAPTURE |
| Source.StampNumbers | kmod/vpipe-source.c:100-133 | a call goes through exactly for the fixture or for a running producer with geometry, room and a mapped plane; it then stamps the instance's next number modulo 2^32 and its backend, and otherwise consumes no number, leaves backend 0 and changes nothing |
| Source.StampTime | kmod/vpipe-source.c:113-133 | a call that goes through stamps the vcam's own time, or the clock where that is 0 or the backend has none, keeps the geometry hints and takes plane, size and drop flag from the backend; the fixture leaves the plane alone |
| Meta.StepRefines | kmod/vpipe-meta.c:36-133 | each publish, open, release or half of a read keeps ring and log related and gives the same answer |
| Meta.RingRefinesLog | kmod/vpipe-meta.c:36-133 | for every interleaving by any number of files, faulting copies included, the 256-slot ring answers every call as the unbounded log does |
| Meta.StatsExact | kmod/vpipe-meta.c:149-156 | in every reachable state published = head = number of publish events, dropped = max(0, head - 256), and the device is going away exactly after an exit event |
| Meta.ReaderSeesLog | kmod/vpipe-meta.c:36-132 | every entry copied to a file is, field by field, the entry of one publish event: version 2, 120 bytes, the overrun flag added exactly when the reader was thrown forward, every other flag and field as submitted; the events strictly increase and the cursor never passes the head |
| Meta.OverrunAccounting | kmod/vpipe-meta.c:112-131 | delivered plus skipped is the distance travelled; skips are forced and land on the oldest retained entry; a flag means a gap; a gap goes unflagged exactly when the copy carrying its flag faulted |
| Meta.FaultLosesFlag | kmod/vpipe-meta.c:112-131 | on a fresh device: open, publish any more than 256 entries, let one read fault and the next succeed; it delivers entry number published - 256 as submitted, with nothing saying that earlier ones are gone |
| Meta.BlockingReadNeverAgain | kmod/vpipe-meta.c:93-110 | a read that came through the wait queue never returns EAGAIN |
| Meta.ReadAnswers | kmod/vpipe-meta.c:78-133 | how an uninterrupted read is answered, exactly: EINVAL below 120 bytes, end of file when the device goes away, blocking or EAGAIN when there is nothing to read, EFAULT or an entry otherwise; and where it leaves the cursor |
| Meta.OpensAtHead | kmod/vpipe-meta.c:58-70 | a file opened after any run starts behind everything published so far |
| Meta.MetaDevice.Publish | kmod/vpipe-meta.c:36-56 | the object's publish takes the step of the state machine, on the whole device value |
| Meta.MetaFile.Open | kmod/vpipe-meta.c:58-70 | a new file starts at the current head |
| Meta.MetaFile.ReadLocked | kmod/vpipe-meta.c:100-123 | the locked section returns and moves the cursor as the state machine says |
| Meta.MetaFile.Read | kmod/vpipe-meta.c:78-133 | a whole read on the object, errors and blocking included, is the uninterrupted sequence of the machine's steps that RingRefinesLog interleaves |
| Driver.Device.Execute | kmod/vpipe-m2m.c:97-654 | from a freshly opened context, any run of calls, PREPARE_BUF and CREATE_BUFS included, whose format changes fit leaves the objects exactly where the machine's run ends: context, device sequence, and a metadata device that published the run's log in order; producers, image work and checksum run as their own loops on arrays and never leave them |
| Driver.SourceObject.NextFrame | kmod/vpipe-source.c:100-133 | resetting and filling the descriptor step by step, with the backend writing the array, gives the stamp of the value model and the backend's own error |
| Driver.Context.SetFormat | kmod/vpipe-m2m.c:97-124 | refuses while the named queue is busy, otherwise sets both formats |
| Driver.Context.BufQueueOutput | kmod/vpipe-m2m.c:162-193 | snapshot, geometry hints, time and source stamp on the buffer's array, as one step of the machine |
| Driver.Context.ReturnAllOutput | kmod/vpipe-m2m.c:206-222 | the draining loop moves every ready OUTPUT buffer to the done list in order, as an error |
| Driver.Context.ReturnAllCapture | kmod/vpipe-m2m.c:206-222 | the same loop on CAPTURE |
| Driver.Context.StreamOffOutput | kmod/vpipe-m2m.c:224-232 | stopping the source and draining leave the context the machine's OUTPUT stream-off leaves |
| Driver.Context.StreamOffCapture | kmod/vpipe-m2m.c:224-251 | draining, then finishing every buffer in index order, publishes to the ring object what the machine's CAPTURE stream-off publishes |
| Driver.Context.BufFinishCapture | kmod/vpipe-m2m.c:234-251 | publishes a pending entry to the ring object with its dequeue time exactly once and nothing otherwise |
| Driver.Context.DeviceRunJob | kmod/vpipe-m2m.c:414-518 | a job done by the array loops and the table-driven checksum takes the machine's step in all three outcomes |
| ExactlyOnce.CtxStepKeeps | kmod/vpipe-m2m.c:234-251 | every callback keeps: pending is non-zero exactly for completed buffers that have not left, and every number taken is published or pending once |
| ExactlyOnce.ExactlyOncePublished | kmod/vpipe-m2m.c:465-518 | over every run of any number of contexts, numbers are 1, 2, 3, ... without gaps, and for every context and number publications plus pending buffers is one if the context took the number and zero otherwise |
| Jobs.JobsTakeNumbers | kmod/vpipe-m2m.c:457-472 | over every run, a job succeeds exactly when its planes are mapped and its snapshotted algorithm is known; the successful jobs of a context correspond in order to the numbers it owns, so a failed job takes none; each of those numbers is published once or pending once |
| Jobs.PublishedEntryOfJob | kmod/vpipe-m2m.c:474-517 | every published entry of every run is the entry of the successful job of its context that took its number, apart from number and dequeue time, and describes that job field by field: the image work on the two planes the job found, over the whole frame in the formats in force and with the snapshotted controls; bytesused = width * height and the checksum of exactly those bytes; CAPTURE index, completion time, backlog, processor; the OUTPUT buffer's own stamps |
| Jobs.PendingEntryOfJob | kmod/vpipe-m2m.c:483-517 | a completed CAPTURE buffer that has not left holds the bytes of the job that took its number, an entry that describes that job field by field, and its own index in it |
| Jobs.CtxStepKeeps | kmod/vpipe-m2m.c:414-518 | every callback keeps the correspondence of jobs, numbers and pending entries |
| Trace.ControlsWritten | kmod/vpipe-m2m.c:296-327 | in every run each of the seven controls of a context holds the value last written to it, or its default 0, 0, 127, 0, 0, 640, 480 |
| Trace.FormatInForce | kmod/vpipe-m2m.c:40-124 | in every run both formats are the size of the last accepted change, 640x480 before any, each side brought into 1..4096 |
| Trace.BackendInForce | kmod/vpipe-m2m.c:635-650 | in every run the source is of the kind last selected, by a known number and while neither queue streamed; the fixture before any |
| Trace.BuffersGranted | kmod/vpipe-m2m.c:126-148 | REQBUFS gives a queue that does not stream as many buffers as asked for, two for one; CREATE_BUFS adds them exactly when they hold the image and are of the queue's memory kind |
| Trace.MemoryInForce | kmod/vpipe-m2m.c:264-290 | in every run all OUTPUT buffers are of the kind of memory of the last request that gave the queue its first buffers |
| Trace.QueuedCapture | kmod/vpipe-m2m.c:150-193 | QBUF of CAPTURE, exactly: a buffer that is prepared, or free and large enough, waits last in its queue with the plane handed in; any other stays with userspace |
| Trace.QueuedOutput | kmod/vpipe-m2m.c:150-193 | the same of OUTPUT before STREAMON |
| Trace.ReleasedInOrder | kmod/vpipe-m2m.c:162-193 | what is held back reaches the ready queue in the order it was queued, with consecutive tickets |
| Trace.BufferTrace | kmod/vpipe-m2m.c:162-193 | every waiting OUTPUT buffer of every run was queued by one QBUF or STREAMON event: its snapshot holds the values last written to each control before that event, its queue time is the event's, and its source time is the clock's or the vcam's |
| Trace.JobTrace | kmod/vpipe-m2m.c:414-518 | every job of every run was run by one event, later than the event that queued its buffer, on the heads of both ready queues with the formats then in force, and returned both buffers, in error exactly when it failed |
| Trace.PublishTrace | kmod/vpipe-m2m.c:234-251 | every log entry was published by one call of its own context, never a device run, and carries that call's time as its dequeue time |
| Trace.EntryTrace | kmod/vpipe-m2m.c:162-518 | every published entry of every run comes from three events in order, that queued its buffer, ran its job and published it, and carries their three times; its source sequence and algorithm are the values last written before the first, its region is the clamp of the four ROI values last written, to the size last accepted before the second; its buffer type is the memory last requested |
| ExactlyOnce.NeverPublishedTwice | kmod/vpipe-m2m.c:245-250 | over every run, every published number is positive and no two published entries, of one context or of two, share one |
| ExactlyOnce.PublishedInOrder | kmod/vpipe-m2m.c:224-251 | over every run, a context's published numbers strictly increase if and only if each of its CAPTURE stream-offs found its completed buffers in index order |
| ExactlyOnce.StreamOffOrder | kmod/vpipe-m2m.c:224-251 | from numbers that increase so far, a CAPTURE stream-off keeps them increasing if and only if the completed buffers on its done list are in index order |
| ExactlyOnce.StreamOffCanReorder | kmod/vpipe-m2m.c:224-251 | from a freshly opened context: queue CAPTURE buffer 1 before buffer 0, run two jobs, stop, and the numbers come out as 2, 1 |
| Provenance.ProvenanceKept | kmod/vpipe-m2m.c:162-193 | over every run: a source numbers its calls 0, 1, 2, ... modulo 2^32; a ready OUTPUT buffer was stamped by the current source instance or carries backend 0, and carries 0 exactly when the source is not the fixture and the buffer reached buf_queue before start_streaming, or its plane had no address, or the frame did not fit; stamped ready buffers carry strictly increasing numbers in queue order; jobs serve buffers in queue order at most once |
| Provenance.TimelineKept | kmod/vpipe-m2m.c:248-249 | with a monotone clock every published entry has qbuf <= capture_done <= dqbuf |
| Provenance.CtxStepKeeps | kmod/vpipe-m2m.c:635-650 | every callback keeps the stamps, their order and the ticket order |
| Provenance.SwitchKeeps | kmod/vpipe-m2m.c:635-643 | putting any new source in place while OUTPUT is stopped keeps every ready buffer stamped by the current source |
| Snapshot.SnapshotIsolation | kmod/vpipe-m2m.c:162-193 | two continuations of a run that differ only in control writes run the same jobs, and those on buffers queued before leave the same CAPTURE bytes and metadata apart from the device sequence |
| Snapshot.QbufSnapshotExactly | README.md:54-57 | the snapshot of a buffer equals the controls at its accepted QBUF if and only if OUTPUT was already streaming or the control writes before STREAMON left the controls as they were |
| Snapshot.HeldTakesLateControls | kmod/vpipe-m2m.c:162-193 | a buffer queued before STREAMON takes the controls in force at STREAMON, whatever happened in between |
| Snapshot.LateControlSeen | kmod/vpipe-m2m.c:162-193 | from a freshly opened context: queue a buffer at threshold 127, write 0, stream on, and the buffer's snapshot holds 0 |
| Snapshot.StepAgrees | kmod/vpipe-m2m.c:447-455 | the same callback on contexts that agree up to later snapshots leaves contexts that agree |
| Snapshot.OldJobAgrees | kmod/vpipe-m2m.c:483-501 | a job on an already queued buffer gives the same bytes and entry in both runs |
| Geometry.FormatsAlwaysAgree | kmod/vpipe-m2m.c:40-55 | in every run both formats of every context are equal, between 1x1 and 4096x4096, with stride = width and sizeimage = width * height |
| Geometry.FormatChangeSafeExactly | kmod/vpipe-m2m.c:97-124 | a format change keeps prepared and queued planes large enough if and only if it is refused or every such plane on the other queue holds the new image |
| Geometry.GeometrySafe | kmod/vpipe-m2m.c:97-160 | over every run, PREPARE_BUF and CREATE_BUFS included: at no point can a producer or a job leave its planes, now or after any further calls that change no format, if and only if every accepted format change found room in the planes prepared or queued on the other queue |
| Geometry.UnfitCanFault | kmod/vpipe-m2m.c:103-121 | from every reachable state, an accepted change without that room has a continuation without format changes in which a producer or a job leaves its plane |
| Geometry.SafeCannotFault | kmod/vpipe-m2m.c:447-452 | while every prepared or queued plane holds the image, no continuation without a format change faults |
| Geometry.FittingRunHolds | kmod/vpipe-m2m.c:150-160 | a run whose format changes all fit has not faulted |
| Geometry.StepSafeExactly | kmod/vpipe-m2m.c:97-124 | of all callbacks only an accepted format change without that room can leave the device out of order |
| Geometry.BothQueuesTested | kmod/vpipe-m2m.c:103-106 | a change made while neither queue has buffers always fits |
| Geometry.RunIsSafe | kmod/vpipe-m2m.c:447-452 | a job's accesses lie inside both planes whenever formats and waiting planes are in order |
| Geometry.CrossQueueChangeFaults | kmod/vpipe-m2m.c:103-144 | on any freshly opened context: two page-sized OUTPUT buffers for 1x1, one queued, CAPTURE changed to 4096x2, two CAPTURE buffers, both queues streaming; the change is accepted and the job reads past the page |
| Geometry.PreparedFillFaults | kmod/vpipe-m2m.c:150-193 | on any freshly opened context: synthetic backend, two page-sized OUTPUT buffers for 1x1, one prepared, OUTPUT streaming, CAPTURE changed to 4096x2, then QBUF of the prepared buffer; the producer writes past the page |
| Runner.RunOne | user/vpipe-vcam-runner.c:315-605 | for every job schedule, clock and drop cadence, for 1 <= frames < 2^32 and queue depths 2 to the maximum: all frames are submitted and completed; the metadata read after the i-th dequeue is frame i's entry; both checksums agree; the driver's queue stamp of that entry follows the line's submission time by exactly the time frame i's QBUF took, its stamps are in order, and the line's dequeue time follows the last one by the time back, so the latency is frame i's own; frame i + depth is submitted after frame i came back; drops are at multiples of N; every other vcam frame passes the pattern test; occupancy has its closed form and peak |
| Runner.Drain | user/vpipe-vcam-runner.c:506-605 | the completion loop ends with every frame submitted, completed and reported in order with its own timeline, and with the predicted occupancy |
| Runner.FillPipeline | user/vpipe-vcam-runner.c:496-503 | the filling loop submits min(frames, depth) frames on distinct buffers, whatever jobs already run; each ring slot holds the time from which that frame's queue stamp in the driver is counted |
| Runner.Setup | user/vpipe-vcam-runner.c:368-477 | opening, configuring and starting both streams reaches the state the loops need |
| Runner.SubmitOutput | user/vpipe-vcam-runner.c:287-312 | queues frame n with its own contents; its ring slot, and no other, gets the clock read that the driver's queue stamp of the same buffer follows |
| Runner.CheckFrame | user/vpipe-vcam-runner.c:539-560 | checksum, metadata read and pattern test of one dequeued frame all agree with that frame |
| Runner.TakeFrame | user/vpipe-vcam-runner.c:527-576 | one dequeued frame becomes a correct line: entry, checksums and the whole timeline |
| Runner.AwaitCapture | user/vpipe-vcam-runner.c:527-531 | a blocking CAPTURE dequeue never deadlocks: a completed buffer is there or a job can run |
| Runner.ReadAfterPublish | kmod/vpipe-meta.c:106-132 | a reader level with the head before a publish neither blocks nor overruns and gets exactly that entry |
| Runner.RingRecords | user/vpipe-vcam-runner.c:299 | recording a submission evicts no frame still in flight |
| Runner.JobStep | kmod/vpipe-m2m.c:414-518 | a job of a run succeeds and leaves the next frame with its checksum and number on CAPTURE |
| Runner.InFlightDistinct | user/vpipe-vcam-runner.c:589-599 | the OUTPUT indices in flight are distinct and as many as submitted minus returned |
| Runner.TotalOccupancy | user/vpipe-vcam-runner.c:517-524 | the occupancy sum of a run is d * frames - d * (d - 1) / 2 with d = min(depth, frames) |

## Left out

- Kernel framework internals (vb2, v4l2-mem2mem, control handler, wait queues, spinlocks, kref): used as the assumptions above.
- Two reads in flight on one open metadata file, and `vpipe_meta_poll`.
- A `start_streaming` that fails, and closing a context while OUTPUT still streams.
- Allocation, file and ioctl failures in userspace; `vpipe_ensure_parent_dir`, option parsing, pacing sleeps.
- Scatter-gather mapping, mmap and page handling of the framebuffer; `vcam_reset` and `synthetic_reset`, which nothing calls.
- Percentiles, means and the scripts: floating point and text output.
- RunOne: models the MMAP transport; the DMA-BUF transport, where OUTPUT shares the framebuffer, is covered by Lockstep for its one frame in flight.
- RunOne: counters of the summary are given as lines; no other context publishes during the run, as the runner itself assumes.
- Execute: one open context; planes live in the buffers as sequences that are put into arrays for a producer or a job and read back, so aliasing is not modelled here.
- CREATE_BUFS on CAPTURE with another memory type than the queue's, which vb2 refuses: the model accepts it, so it has more runs.
- The limit of 32 buffers per queue and the page rounding of their memory: planes of any length and number are allowed.
- KernelMatchesReference: stated for stride = width, the only stride the reference knows; ProcessedPixel covers other strides.
- Capture and bench programs and `vpipe-fixture.c`: single-branch facts and ioctl plumbing.
