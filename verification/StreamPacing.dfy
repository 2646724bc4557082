/** Release times of queued segments: the configured latencies after acceptance, as paced by the bandwidth
    stage, and staggered by the slice delay across all calls. */
module StreamPacing {
  import opened Common
  import opened StreamEngine
  import opened StreamRuns
  import opened StreamCompile
  import StreamPlan

  /** The largest inter-slice delay among the active slicers from stage i on. */
  function SliceDelayFrom(c: Config, i: nat, acc: nat): nat
    requires i <= |c.faults| && |c.active| == |c.faults|
    decreases |c.faults| - i
  {
    if i == |c.faults| then acc
    else SliceDelayFrom(c, i + 1, if c.active[i] && c.faults[i].kind.Slice? then Max(acc, c.faults[i].kind.sliceDelay)
                        else acc)
  }

  /** It is the largest: at least every active slicer's delay, and one of them (or what it started from). */
  lemma {:induction false} SliceDelayLargest(c: Config, i: nat, acc: nat)
    requires i <= |c.faults| && |c.active| == |c.faults|
    ensures var gap := SliceDelayFrom(c, i, acc);
            && acc <= gap
            && (forall k :: i <= k < |c.faults| && c.active[k] && c.faults[k].kind.Slice? ==>
                c.faults[k].kind.sliceDelay <= gap)
            && (gap == acc || exists k :: i <= k < |c.faults| && c.active[k] && c.faults[k].kind.Slice?
                                          && c.faults[k].kind.sliceDelay == gap)
    decreases |c.faults| - i
  {
    if i < |c.faults| {
      SliceDelayLargest(c, i + 1, if c.active[i] && c.faults[i].kind.Slice? then Max(acc, c.faults[i].kind.sliceDelay)
                        else acc);
    }
  }

  // --- Latency ---

  /** The least and the most one fault can delay a segment, in nanoseconds of 64 bits. */
  function Least(kind: StreamPlan.FaultKind): nat {
    if kind.Latency? then Min(Max(0, kind.delay - kind.jitter), U64_MAX) else 0
  }

  function Most(kind: StreamPlan.FaultKind): nat {
    if kind.Latency? then Min(kind.delay + kind.jitter, U64_MAX) else 0
  }

  /** The same summed over the active faults from stage i on. */
  function LeastFrom(c: Config, i: nat): nat
    requires i <= |c.faults| && |c.active| == |c.faults|
    decreases |c.faults| - i
  {
    if i == |c.faults| then 0 else LeastFrom(c, i + 1) + if c.active[i] then Least(c.faults[i].kind) else 0
  }

  function MostFrom(c: Config, i: nat): nat
    requires i <= |c.faults| && |c.active| == |c.faults|
    decreases |c.faults| - i
  {
    if i == |c.faults| then 0 else MostFrom(c, i + 1) + if c.active[i] then Most(c.faults[i].kind) else 0
  }

  lemma {:induction false} LatencyBounds(kind: StreamPlan.FaultKind, rng: Rng)
    requires kind.Latency?
    ensures Least(kind) <= LatencyNanos(kind.delay, kind.jitter, rng).0 <= Most(kind)
  {
  }

  /** Without jitter the delay is exact. */
  lemma {:induction false} ExactLatency(c: Config, i: nat)
    requires i <= |c.faults| && |c.active| == |c.faults|
    requires forall k :: i <= k < |c.faults| && c.active[k] && c.faults[k].kind.Latency? ==>
             c.faults[k].kind.jitter == 0
    ensures LeastFrom(c, i) == MostFrom(c, i)
    decreases |c.faults| - i
  {
    if i < |c.faults| {
      ExactLatency(c, i + 1);
    }
  }

  /** The delay stages add what the active latency faults say, and count it in whole milliseconds. */
  lemma {:induction false} DelayStagesEffect(c: Config, i: nat, d: Delays)
    requires i <= |c.faults| && |c.active| == |c.faults| == |d.rngs|
    ensures var e := DelayStages(c, i, d);
            && e.sliceDelay == SliceDelayFrom(c, i, d.sliceDelay)
            && d.release + LeastFrom(c, i) <= e.release <= d.release + MostFrom(c, i) && |e.rngs| == |c.faults|
            && e.release - d.release <= (e.injectedMs - d.injectedMs) * 1_000_000 + 1_000_000 * (|c.faults| - i)
            && (e.injectedMs - d.injectedMs) * 1_000_000 <= e.release - d.release
    decreases |c.faults| - i
  {
    if i < |c.faults| {
      if c.active[i] && c.faults[i].kind.Latency? {
        LatencyBounds(c.faults[i].kind, d.rngs[i]);
        WholeMillisBounds(LatencyNanos(c.faults[i].kind.delay, c.faults[i].kind.jitter, d.rngs[i]).0);
      }
      DelayStagesEffect(c, i + 1, DelayStage(c, i, d));
    }
  }

  lemma {:induction false} WholeMillisBounds(nanos: nat)
    ensures WholeMillis(nanos) * 1_000_000 <= nanos < WholeMillis(nanos) * 1_000_000 + 1_000_000
  {
  }

  // --- Bandwidth ---

  /** The bucket of a connection is the one its merged bandwidth fault asks for. */
  ghost predicate BucketOk(c: Config, b: Option<TokenBucket>) {
    match c.bandwidth
    case None => b.None?
    case Some(limits) =>
      b.Some? && b.value.rate == limits.0 && b.value.capacity == limits.1 * 1_000_000 &&
        b.value.tokens <= b.value.capacity
  }

  /** What an idle time earns: as many tokens as the rate yields, rounded down, up to the capacity. */
  lemma {:induction false} RefillMeans(b: TokenBucket, now: nat)
    requires b.tokens <= b.capacity
    ensures var (a, e) := (Refill(b, now), Max(0, now - b.last));
            && a == b.(tokens := a.tokens, last := Max(now, b.last)) && b.tokens <= a.tokens <= b.capacity
            && a.tokens * 1_000 <= b.tokens * 1_000 + e * b.rate
            && (a.tokens < b.capacity ==> (a.tokens + 1) * 1_000 > b.tokens * 1_000 + e * b.rate)
  {
    if now > b.last {
      var x := (now - b.last) * b.rate;
      assert x / 1_000 * 1_000 <= x < x / 1_000 * 1_000 + 1_000;
    }
  }

  /** `wait` is the shortest time in which the rate earns the missing tokens. */
  ghost predicate ShortestWait(missing: nat, rate: pos, wait: nat) {
    wait * rate >= missing * 1_000 && (wait > 0 ==> (wait - 1) * rate < missing * 1_000)
  }

  lemma {:induction false} ShortestCeil(missing: nat, rate: pos)
    ensures ShortestWait(missing, rate, (missing * 1_000 + rate - 1) / rate)
  {
    var x := missing * 1_000 + rate - 1;
    var w := x / rate;
    assert w * rate <= x < (w + 1) * rate by {
      DivBounds(x, rate);
    }
    assert (w + 1) * rate == w * rate + rate;
    if w > 0 {
      assert (w - 1) * rate == w * rate - rate;
    }
  }

  lemma {:induction false} DivBounds(x: nat, d: pos)
    ensures x / d * d <= x < (x / d + 1) * d
  {
    assert x == x / d * d + x % d;
    assert (x / d + 1) * d == x / d * d + d;
  }

  lemma {:induction false} CeilSmall(missing: nat, rate: pos)
    ensures (missing * 1_000 + rate - 1) / rate <= missing * 1_000
  {
    var w := (missing * 1_000 + rate - 1) / rate;
    ShortestCeil(missing, rate);
    if w > 0 {
      assert (w - 1) * rate >= w - 1 by {
        ProductAtLeast(w - 1, rate);
      }
    }
  }

  lemma {:induction false} ProductAtLeast(a: nat, rate: pos)
    ensures a * rate >= a
  {
    assert a * rate == a * (rate - 1) + a;
    assert a * (rate - 1) >= 0;
  }

  /** A segment the bucket can afford is not held; another one is held exactly until the rate has earned what
      is missing, and empties the bucket. */
  lemma {:induction false} ConsumeMeans(b: TokenBucket, len: nat, now: nat, earliest: nat) returns (wait: nat)
    requires len <= DEFAULT_BUFFER
    ensures var (after, release, throttled) := Consume(b, len, now, earliest);
            var (a, need) := (Refill(b, now).tokens, len * 1_000_000);
            && after == Refill(b, now).(tokens := if a >= need then a - need else 0)
            && release == Max(Max(earliest, now), now + wait)
            && (if a >= need then wait == 0 else ShortestWait(need - a, b.rate, wait))
            && (wait == 0 ==> throttled == 0)
  {
    var (a, need) := (Refill(b, now).tokens, len * 1_000_000);
    if a >= need {
      wait := 0;
    } else {
      wait := ((need - a) * 1_000 + b.rate - 1) / b.rate;
      ShortestCeil(need - a, b.rate);
      CeilSmall(need - a, b.rate);
    }
  }

  // --- Segments ---

  /** Whether segments are staggered by slicers. */
  ghost predicate Staggered(c: Config)
    requires |c.active| == |c.faults|
  {
    c.slicerActive && SliceDelayFrom(c, 0, 0) > 0
  }

  /** A segment accepted at `now` is released no earlier than the active latencies allow, and no later when
      neither bandwidth nor slicing holds it back. */
  ghost predicate OnSchedule(c: Config, now: nat, release: nat)
    requires |c.active| == |c.faults|
  {
    && now + LeastFrom(c, 0) <= release
    && (c.bandwidth.None? && !Staggered(c) ==> release <= now + MostFrom(c, 0))
  }

  lemma {:induction false} SliceStagesLength(c: Config, i: nat, rngs: seq<Rng>, size: nat)
    requires i <= |c.faults|
    ensures |SliceStages(c, i, rngs, size).1| == |rngs|
    decreases |c.faults| - i
  {
    if i < |c.faults| {
      var (z, g) := SliceStage(c, i, rngs, size);
      SliceStagesLength(c, i + 1, g, z);
    }
  }

  function Releases(q: seq<Queued>): seq<nat> {
    seq(|q|, i requires 0 <= i < |q| => q[i].release)
  }

  /** Each release is at least the slice delay after every earlier one, and the cursor is at least
      the slice delay after all of them. */
  ghost predicate Spaced(c: Config, releases: seq<nat>, cursor: nat)
    requires |c.active| == |c.faults|
  {
    var gap := SliceDelayFrom(c, 0, 0);
    c.slicerActive && gap > 0 ==>
      && (forall i :: 0 <= i < |releases| ==> releases[i] + gap <= cursor)
      && (forall i, j :: 0 <= i < j < |releases| ==> releases[i] + gap <= releases[j])
  }

  /** `q` is `p` with more segments behind it, each on schedule and counted, and the whole release history
      `past` followed by the new releases still spaced. */
  ghost predicate Grew(c: Config, p: Pipe, q: Pipe, past: seq<nat>, now: nat)
    requires |c.active| == |c.faults|
  {
    && p.queue <= q.queue && |q.rngs| == |c.faults| && BucketOk(c, q.bucket)
    && (forall i :: |p.queue| <= i < |q.queue| ==> OnSchedule(c, now, q.queue[i].release))
    && Spaced(c, past + Releases(q.queue[|p.queue|..]), q.sliceCursor)
  }

  lemma {:induction false} PushSegmentGrew(c: Config, p: Pipe, bytes: seq<Byte>, past: seq<nat>, now: nat)
    requires |c.active| == |c.faults| == |p.rngs| && Spaced(c, past, p.sliceCursor) && BucketOk(c, p.bucket)
    ensures Grew(c, p, PushSegment(c, p, bytes, now), past, now)
  {
    DelayStagesEffect(c, 0, Delays(p.rngs, now, 0, p.work.injectedMs));
    var q := PushSegment(c, p, bytes, now);
    var x := q.queue[|p.queue|];
    assert q.queue[|p.queue|..] == [x];
    assert past + Releases([x]) == past + [x.release];
  }

  lemma {:induction false} GrewThen(c: Config, p: Pipe, q: Pipe, r: Pipe, past: seq<nat>, now: nat)
    requires |c.active| == |c.faults|
    requires Grew(c, p, q, past, now)
    requires Grew(c, q, r, past + Releases(q.queue[|p.queue|..]), now)
    ensures Grew(c, p, r, past, now)
  {
    ReleasesJoin(p.queue, q.queue, r.queue, past);
    forall i | |p.queue| <= i < |r.queue| ensures OnSchedule(c, now, r.queue[i].release) {
      assert i < |q.queue| ==> r.queue[i] == q.queue[i];
    }
  }

  lemma {:induction false} ReleasesJoin(p: seq<Queued>, q: seq<Queued>, r: seq<Queued>, past: seq<nat>)
    requires p <= q <= r
    ensures p <= r && past + Releases(r[|p|..]) == (past + Releases(q[|p|..])) + Releases(r[|q|..])
  {
    var a, b := q[|p|..], r[|q|..];
    assert r[|p|..] == a + b;
    assert Releases(a + b) == Releases(a) + Releases(b);
  }

  lemma {:induction false} PushRunGrew(c: Config, p: Pipe, data: seq<Byte>, past: seq<nat>, now: nat)
    requires |c.active| == |c.faults| == |p.rngs| && Spaced(c, past, p.sliceCursor) && BucketOk(c, p.bucket)
    ensures Grew(c, p, PushRun(c, p, data, now).0, past, now)
    decreases |data|
  {
    assert past + Releases([]) == past;
    assert p.queue[|p.queue|..] == [];
    if data != [] {
      SliceStagesLength(c, 0, p.rngs, |data|);
      var (k, rngs) := NextSize(c, p.rngs, |data|);
      var p1 := p.(rngs := rngs);
      if p.buffered + k <= c.maxBuffer {
        PushSegmentGrew(c, p1, data[..k], past, now);
        var p2 := PushSegment(c, p1, data[..k], now);
        PushRunGrew(c, p2, data[k..], past + Releases(p2.queue[|p.queue|..]), now);
        GrewThen(c, p, p2, PushRun(c, p2, data[k..], now).0, past, now);
      }
    }
  }

  lemma {:induction false} RoundGrew(c: Config, p: Pipe, l: Loss, data: seq<Byte>, past: seq<nat>, now: nat)
    requires |c.active| == |c.faults| == |p.rngs| && Spaced(c, past, p.sliceCursor) && BucketOk(c, p.bucket) &&
             data != []
    ensures Grew(c, p, ClassifyRound(c, p, l, data, now).pipe, past, now)
  {
    assert past + Releases([]) == past;
    assert p.queue[|p.queue|..] == [];
    var chunk := ChunkOf(l.offset);
    var run: nat := Min((chunk + 1) * GRAIN - l.offset, |data|);
    var room: nat := Min(run, Minus(c.maxBuffer, p.buffered));
    PushRunGrew(c, p, data[..room], past, now);
  }

  lemma {:induction false} ClassifyGrew(c: Config, p: Pipe, l: Loss, data: seq<Byte>, past: seq<nat>, now: nat)
    requires |c.active| == |c.faults| == |p.rngs| && Spaced(c, past, p.sliceCursor) && BucketOk(c, p.bucket)
    ensures Grew(c, p, Classify(c, p, l, data, now).pipe, past, now)
    decreases |data|
  {
    assert past + Releases([]) == past;
    assert p.queue[|p.queue|..] == [];
    if data != [] {
      RoundGrew(c, p, l, data, past, now);
      var r := ClassifyRound(c, p, l, data, now);
      if !r.stop {
        ClassifyGrew(c, r.pipe, r.loss, data[r.taken..], past + Releases(r.pipe.queue[|p.queue|..]), now);
        GrewThen(c, p, r.pipe, Classify(c, r.pipe, r.loss, data[r.taken..], now).pipe, past, now);
      }
    }
  }

  lemma {:induction false} LossyGrew(c: Config, s: Engine, input: seq<Byte>, past: seq<nat>, now: nat)
    requires |c.active| == |c.faults| == |s.pipe.rngs| && Spaced(c, past, s.pipe.sliceCursor) &&
             BucketOk(c, s.pipe.bucket)
    ensures Grew(c, s.pipe, AcceptLossy(c, s, input, now).0.pipe, past, now)
  {
    ClassifyGrew(c, s.pipe, s.loss, input[..WithinLimit(s, |input|)], past, now);
  }

  lemma {:induction false} PreservingGrew(c: Config, s: Engine, input: seq<Byte>, past: seq<nat>, now: nat)
    requires |c.active| == |c.faults| == |s.pipe.rngs| && Spaced(c, past, s.pipe.sliceCursor) &&
             BucketOk(c, s.pipe.bucket)
    requires Grew(c, s.pipe, s.pipe, past, now)
    ensures Grew(c, s.pipe, AcceptPreserving(c, s, input, now).0.pipe, past, now)
  {
    var cap: nat := Min(WithinLimit(s, |input|), Minus(c.maxBuffer, s.pipe.buffered));
    PushRunGrew(c, s.pipe, input[..cap], past, now);
  }

  lemma {:induction false} AcceptGrew(c: Config, s: Engine, input: seq<Byte>, past: seq<nat>, clock: Clock)
    requires |c.active| == |c.faults| == |s.pipe.rngs| && Spaced(c, past, s.pipe.sliceCursor) &&
             BucketOk(c, s.pipe.bucket)
    ensures Grew(c, s.pipe, Accept(c, s, input, clock).0.pipe, past, clock.now)
  {
    assert past + Releases([]) == past;
    var p := s.pipe;
    assert p.queue[|p.queue|..] == [];
    assert Grew(c, p, p, past, clock.now);
    var r := Refresh(c, s, clock.due);
    assert r.pipe == p;
    LossyGrew(c, r, input, past, clock.now);
    PreservingGrew(c, r, input, past, clock.now);
  }

  lemma {:induction false} DrainPacing(s: Engine, io: seq<Io>)
    ensures Drain(s, io).0.pipe.sliceCursor == s.pipe.sliceCursor && Drain(s, io).0.pipe.rngs == s.pipe.rngs
    ensures Drain(s, io).0.pipe.bucket == s.pipe.bucket
    decreases |io|
  {
    if s.pipe.queue != [] && io != [] {
      var (t, p) := DrainOnce(s, io[0]);
      DrainPacing(t, io[1..]);
    }
  }

  /** The engine and the release times of every segment it ever queued. */
  datatype Paced = Paced(s: Engine, releases: seq<nat>)

  function Step(c: Config, t: Paced, op: Op): Paced {
    match op
    case Send(input, clock) =>
      var s := Accept(c, t.s, input, clock).0;
      var n := |t.s.pipe.queue|;
      Paced(s, t.releases + Releases(if n <= |s.pipe.queue| then s.pipe.queue[n..] else []))
    case Flush(io) => Paced(Drain(t.s, io).0, t.releases)
  }

  function Steps(c: Config, t: Paced, ops: seq<Op>): Paced
    decreases |ops|
  {
    if ops == [] then t else Steps(c, Step(c, t, ops[0]), ops[1..])
  }

  /** With an active positive slice delay, the releases of any two segments queued in a run, in
      whatever calls and between whatever drains, are at least that delay apart. */
  lemma {:induction false} SlicesStaggered(c: Config, t: Paced, ops: seq<Op>)
    requires |c.active| == |c.faults| == |t.s.pipe.rngs|
    requires Spaced(c, t.releases, t.s.pipe.sliceCursor) && BucketOk(c, t.s.pipe.bucket)
    ensures Spaced(c, Steps(c, t, ops).releases, Steps(c, t, ops).s.pipe.sliceCursor)
    decreases |ops|
  {
    if ops != [] {
      match ops[0] {
        case Send(input, clock) => AcceptGrew(c, t.s, input, t.releases, clock);
        case Flush(io) => DrainPacing(t.s, io);
      }
      SlicesStaggered(c, Step(c, t, ops[0]), ops[1..]);
    }
  }

  /** On a freshly compiled connection: whenever slicer i drew active, any two segments it ever queues are
      released at least that slicer's delay apart, over every run. */
  lemma {:induction false} FreshSlicesStaggered(faults: seq<StreamPlan.FaultSpec>, seeds: Seeds, direction: Direction,
                                                start: nat,
                             handle: Option<TerminationInfo>, ops: seq<Op>, i: nat, a: nat, b: nat)
    requires i < |faults| && faults[i].kind.Slice? && Drawn(seeds, faults[i])
    requires var t := Paced(FreshEngine(faults, seeds, start, handle), []);
             a < b < |Steps(ConfigOf(faults, seeds, direction, start), t, ops).releases|
    ensures var t := Paced(FreshEngine(faults, seeds, start, handle), []);
            var releases := Steps(ConfigOf(faults, seeds, direction, start), t, ops).releases;
            faults[i].kind.sliceDelay > 0 ==> releases[a] + faults[i].kind.sliceDelay <= releases[b]
  {
    var c := ConfigOf(faults, seeds, direction, start);
    ActiveMeansDrawn(seeds, start, NOTHING_COMPILED, faults);
    CompiledMerges(faults, seeds, direction, start);
    assert c.active[i] && faults[i] in faults;
    SliceDelayLargest(c, 0, 0);
    SlicesStaggered(c, Paced(FreshEngine(faults, seeds, start, handle), []), ops);
  }
}
