/** Delivery over whole runs: no byte reaches the writer before its acceptance time plus the latencies active
    on the connection, and slicers cut within their configured sizes. */
module StreamDelays {
  import opened Common
  import opened StreamEngine
  import opened StreamProofs
  import opened StreamRuns
  import opened StreamCompile
  import opened StreamPacing
  import StreamPlan

  // --- Slices ---

  /** Slicer k is active. */
  ghost predicate Slicing(c: Config, k: nat) {
    k < |c.faults| && k < |c.active| && c.active[k] && c.faults[k].kind.Slice?
  }

  /** The smallest and the largest size a slicer may draw. */
  function Smallest(kind: StreamPlan.FaultKind): nat
    requires kind.Slice?
  {
    Max(1, Min(Minus(kind.averageSize, kind.variation), U64_MAX))
  }

  function Largest(kind: StreamPlan.FaultKind): nat
    requires kind.Slice?
  {
    Max(1, Minus(kind.averageSize, kind.variation) + 2 * kind.variation)
  }

  /** The stages cut no more than their largest sizes, and no less than the smallest of one of them. */
  lemma {:induction false} SliceStagesBounds(c: Config, i: nat, rngs: seq<Rng>, size: nat)
    requires i <= |c.faults| && |c.active| == |c.faults| == |rngs|
    ensures var z := SliceStages(c, i, rngs, size).0;
            && z <= size
            && (forall k :: i <= k && Slicing(c, k) ==> z <= Largest(c.faults[k].kind))
            && (z == size || exists k :: i <= k && Slicing(c, k) && Smallest(c.faults[k].kind) <= z)
    decreases |c.faults| - i
  {
    if i < |c.faults| {
      var (z1, g) := SliceStage(c, i, rngs, size);
      SliceStagesBounds(c, i + 1, g, z1);
      var z := SliceStages(c, i + 1, g, z1).0;
      assert Slicing(c, i) ==> z1 <= Largest(c.faults[i].kind);
      if z == z1 && z1 != size {
        assert Slicing(c, i) && Smallest(c.faults[i].kind) <= z;
      }
    }
  }

  /** The next segment is the whole rest, or a slice within the sizes of the active slicers. */
  lemma {:induction false} SliceBounds(c: Config, rngs: seq<Rng>, remaining: pos)
    requires |c.active| == |c.faults| == |rngs| && (c.slicerActive <==> exists k: nat :: Slicing(c, k))
    ensures var n := NextSize(c, rngs, remaining).0;
            && 1 <= n <= remaining
            && (forall k: nat :: Slicing(c, k) ==> n <= Largest(c.faults[k].kind))
            && (n == remaining || exists k: nat :: Slicing(c, k) && Smallest(c.faults[k].kind) <= n)
  {
    SliceStagesBounds(c, 0, rngs, remaining);
  }

  // --- One segment ---

  /** The wait the bucket imposes on a segment of this length: none if it can pay, otherwise the shortest in
      which the rate earns what is missing. */
  ghost predicate BandwidthWait(b: TokenBucket, len: nat, now: nat, wait: nat) {
    var (have, need) := (Refill(b, now).tokens, len * 1_000_000);
    if have >= need then wait == 0 else ShortestWait(need - have, b.rate, wait)
  }

  /** One segment is queued behind the others, counted once, and released when latency and bandwidth allow,
      and, if staggered, no earlier than the slice cursor, which moves on by the slice delay; but no later
      than the last of these. The bucket pays for it. */
  lemma {:induction false} SegmentMeans(c: Config, p: Pipe, bytes: seq<Byte>, now: nat) returns (x: Queued, wait: nat)
    requires |c.active| == |c.faults| == |p.rngs| && BucketOk(c, p.bucket) && |bytes| <= DEFAULT_BUFFER
    ensures var q := PushSegment(c, p, bytes, now);
            && q.queue == p.queue + [x] && x.bytes == bytes
            && q.buffered == p.buffered + |bytes| && q.highWater == Max(p.highWater, q.buffered)
            && q.work.segments == p.work.segments + 1
            && q.work.slices == p.work.slices + (if c.slicerActive then 1 else 0)
    ensures if p.bucket.None? then wait == 0 else BandwidthWait(p.bucket.value, |bytes|, now, wait)
    ensures var cursor := if Staggered(c) then p.sliceCursor else 0;
            && Max(now + Max(LeastFrom(c, 0), wait), cursor) <= x.release
            && x.release <= Max(now + Max(MostFrom(c, 0), wait), cursor)
            && (Staggered(c) ==>
                  PushSegment(c, p, bytes, now).sliceCursor == x.release + SliceDelayFrom(c, 0, 0))
    ensures p.bucket.Some? ==>
              var (b, need) := (Refill(p.bucket.value, now), |bytes| * 1_000_000);
              PushSegment(c, p, bytes, now).bucket
                == Some(b.(tokens := if b.tokens >= need then b.tokens - need else 0))
  {
    var d := Delays(p.rngs, now, 0, p.work.injectedMs);
    DelayStagesEffect(c, 0, d);
    var q := PushSegment(c, p, bytes, now);
    x := q.queue[|p.queue|];
    wait := 0;
    if p.bucket.Some? {
      wait := ConsumeMeans(p.bucket.value, |bytes|, now, DelayStages(c, 0, d).release);
    }
  }

  // --- Dated runs ---

  /** One write with the time at which its bytes were accepted. */
  datatype Sending = Sending(write: Write, accepted: nat)

  /** A history with the acceptance time of every queued segment and of every write. */
  datatype Dated = Dated(t: Trace, times: seq<nat>, sent: seq<Sending>)

  /** Queued segments are on schedule for their acceptance times. */
  ghost predicate QueueDated(c: Config, queue: seq<Queued>, times: seq<nat>)
    requires |c.active| == |c.faults|
  {
    |times| == |queue| && (forall i :: 0 <= i < |queue| ==> OnSchedule(c, times[i], queue[i].release))
  }

  /** The write happened no earlier than the active latencies after its acceptance. */
  ghost predicate NotEarly(c: Config, x: Sending)
    requires |c.active| == |c.faults|
  {
    OnSchedule(c, x.accepted, x.write.release) && x.accepted + LeastFrom(c, 0) <= x.write.at
  }

  ghost function Repeated(now: nat, n: nat): (r: seq<nat>)
    ensures |r| == n && (forall i :: 0 <= i < n ==> r[i] == now)
  {
    if n == 0 then [] else Repeated(now, n - 1) + [now]
  }

  /** What a drain writes, with acceptance times, and the times of what stays queued. */
  ghost function DrainDated(s: Engine, times: seq<nat>, io: seq<Io>): (seq<nat>, seq<Sending>)
    requires |times| == |s.pipe.queue|
    decreases |io|
  {
    if s.pipe.queue == [] || io == [] then (times, [])
    else
      var (t, p) := DrainOnce(s, io[0]);
      if p.Stopped? then (times, [])
      else
        var left := if |t.pipe.queue| < |s.pipe.queue| then times[1..] else times;
        var (rest, sent) := DrainDated(t, left, io[1..]);
        (rest, [Sending(p.write, times[0])] + sent)
  }

  ghost function Exec(c: Config, d: Dated, op: Op): Dated
    requires |d.times| == |d.t.s.pipe.queue|
  {
    match op
    case Send(input, clock) =>
      var t := Accepted(c, d.t, input, clock);
      d.(t := t, times := d.times + Repeated(clock.now, Minus(|t.s.pipe.queue|, |d.t.s.pipe.queue|)))
    case Flush(io) =>
      var (times, sent) := DrainDated(d.t.s, d.times, io);
      Dated(Flushed(d.t, io), times, d.sent + sent)
  }

  ghost predicate DatedOk(c: Config, d: Dated) {
    && Inv(c, d.t) && |c.active| == |c.faults| == |d.t.s.pipe.rngs| && BucketOk(c, d.t.s.pipe.bucket)
    && QueueDated(c, d.t.s.pipe.queue, d.times)
    && (forall i :: 0 <= i < |d.sent| ==> NotEarly(c, d.sent[i]))
  }

  /** A drain writes nothing early, and what it writes is what the engine's drain writes. */
  lemma {:induction false} DrainNotEarly(c: Config, s: Engine, times: seq<nat>, io: seq<Io>)
    requires |c.active| == |c.faults| && SignalsOk(s) && Clocked(io) && QueueDated(c, s.pipe.queue, times)
    ensures var (left, sent) := DrainDated(s, times, io);
            && QueueDated(c, Drain(s, io).0.pipe.queue, left)
            && |sent| == |Drain(s, io).1|
            && (forall i :: 0 <= i < |sent| ==> NotEarly(c, sent[i]) && sent[i].write == Drain(s, io).1[i])
    decreases |io|
  {
    if s.pipe.queue != [] && io != [] {
      var (t, p) := DrainOnce(s, io[0]);
      TimerKeeps(s, io[0]);
      if p.Sent? {
        var left := if |t.pipe.queue| < |s.pipe.queue| then times[1..] else times;
        DrainOnceDated(c, s, times, io[0]);
        DrainNotEarly(c, t, left, io[1..]);
      }
    }
  }

  lemma {:induction false} DrainOnceDated(c: Config, s: Engine, times: seq<nat>, e: Io)
    requires |c.active| == |c.faults| && SignalsOk(s) && e.now <= e.at && QueueDated(c, s.pipe.queue, times)
    requires s.pipe.queue != [] && DrainOnce(s, e).1.Sent?
    ensures var (t, p) := DrainOnce(s, e);
            && SignalsOk(t) && NotEarly(c, Sending(p.write, times[0]))
            && QueueDated(c, t.pipe.queue, if |t.pipe.queue| < |s.pipe.queue| then times[1..] else times)
  {
    TimerKeeps(s, e);
  }

  lemma {:induction false} SendNotEarly(c: Config, d: Dated, input: seq<Byte>, clock: Clock)
    requires DatedOk(c, d)
    ensures DatedOk(c, Exec(c, d, Send(input, clock)))
  {
    AcceptKeeps(c, d.t, input, clock);
    assert Spaced(c, [], 0);
    ScheduledGrowth(c, d.t.s, input, clock);
  }

  /** Acceptance appends segments that are on schedule. */
  lemma {:induction false} ScheduledGrowth(c: Config, s: Engine, input: seq<Byte>, clock: Clock)
    requires |c.active| == |c.faults| == |s.pipe.rngs| && BucketOk(c, s.pipe.bucket)
    ensures var p, q := s.pipe, Accept(c, s, input, clock).0.pipe;
            && p.queue <= q.queue && |q.rngs| == |c.faults| && BucketOk(c, q.bucket)
            && (forall i :: |p.queue| <= i < |q.queue| ==> OnSchedule(c, clock.now, q.queue[i].release))
  {
    AcceptGrew(c, s, input, [], clock);
  }

  ghost function Runs(c: Config, d: Dated, ops: seq<Op>): Dated
    requires DatedOk(c, d) && ClockedOps(ops)
    decreases |ops|
  {
    if ops == [] then d
    else
      ExecNotEarly(c, d, ops[0]);
      Runs(c, Exec(c, d, ops[0]), ops[1..])
  }

  lemma {:induction false} ExecNotEarly(c: Config, d: Dated, op: Op)
    requires DatedOk(c, d) && (op.Flush? ==> Clocked(op.io))
    ensures DatedOk(c, Exec(c, d, op))
  {
    match op {
      case Send(input, clock) => SendNotEarly(c, d, input, clock);
      case Flush(io) =>
        DrainKeeps(c, d.t, io);
        DrainNotEarly(c, d.t.s, d.times, io);
        DrainPacing(d.t.s, io);
    }
  }

  /** Over every run, no write happens before the acceptance of its bytes plus the active latencies; a
      connection without bandwidth or slicing stages releases within them. */
  lemma {:induction false} NothingEarly(c: Config, d: Dated, ops: seq<Op>)
    requires DatedOk(c, d) && ClockedOps(ops)
    ensures DatedOk(c, Runs(c, d, ops))
    decreases |ops|
  {
    if ops != [] {
      ExecNotEarly(c, d, ops[0]);
      NothingEarly(c, Exec(c, d, ops[0]), ops[1..]);
    }
  }

  /** On a freshly compiled connection. */
  lemma {:induction false} FreshNothingEarly(faults: seq<StreamPlan.FaultSpec>, seeds: Seeds, direction: Direction,
                                             start: nat, ops: seq<Op>)
    requires ClockedOps(ops)
    ensures var c := ConfigOf(faults, seeds, direction, start);
            var d := Dated(Trace(FreshEngine(faults, seeds, start, None), [], [], 0, NO_BASE), [], []);
            DatedOk(c, d) && DatedOk(c, Runs(c, d, ops))
  {
    var c := ConfigOf(faults, seeds, direction, start);
    var d := Dated(Trace(FreshEngine(faults, seeds, start, None), [], [], 0, NO_BASE), [], []);
    FreshKeeps(faults, seeds, direction, start, None);
    ActiveMeansDrawn(seeds, start, NOTHING_COMPILED, faults);
    NothingEarly(c, d, ops);
  }
}
