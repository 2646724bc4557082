/** What the stream direction engine computes, as functions on values: acceptance through the
    fault stages into a bounded release queue, correlated stream loss, and draining (engine.rs). */
module StreamEngine {
  import opened Common
  import opened StreamPlan

  const GRAIN: nat := 32 * 1024
  const DEFAULT_BUFFER: nat := 64 * 1024

  datatype Direction = Upstream | Downstream

  datatype TerminationRequest = Graceful | HardReset

  datatype TerminationInfo = TerminationInfo(request: TerminationRequest, direction: Direction, faultId: string)

  datatype Queued = Queued(bytes: seq<Byte>, release: nat)

  /** Fault-local random streams; the seed derivations are parameters. */
  datatype Seeds = Seeds(step: nat -> (nat, nat), activation: string -> nat, loss: string -> nat)

  datatype BlackholeState = BlackholeState(deadline: Option<nat>, faultId: string)

  datatype DisconnectState = DisconnectState(deadline: nat, hardReset: bool, faultId: string)

  /** What compiling a plan for one connection fixes. `limit` is the smallest active byte limit. */
  datatype Config = Config(
    faults: seq<FaultSpec>, active: seq<bool>, seeds: Seeds, direction: Direction, maxBuffer: pos,
    limit: Option<Limit>, blackhole: Option<BlackholeState>, disconnect: Option<DisconnectState>,
    bandwidth: Option<(pos, pos)>, slicerActive: bool)

  datatype Limit = Limit(remaining: nat, id: string)

  datatype TokenBucket = TokenBucket(rate: pos, capacity: nat, tokens: nat, last: nat)

  /** Chunk-decision state of one active stream-loss fault. */
  datatype LossState = LossState(rng: Rng, decided: Option<(nat, bool)>, prevDropped: bool)

  /** A deadline-keyed timer; the sleep and the deadline it was armed for live and die together. */
  datatype Timer = Idle | Armed(fire: nat, deadline: nat)

  /** Counters of the preserving pipeline. */
  datatype Work = Work(segments: nat, slices: nat, injectedMs: nat, throttledMs: nat)

  /** The bounded release queue and everything that shapes it. */
  datatype Pipe = Pipe(
    queue: seq<Queued>, buffered: nat, highWater: nat, rngs: seq<Rng>,
    bucket: Option<TokenBucket>, sliceCursor: nat, work: Work)

  /** The stream-loss machinery: per-fault state, absolute offset, evaluated chunk prefix, counters. */
  datatype Loss = Loss(states: seq<Option<LossState>>, offset: nat, evaluated: nat, chunksEvaluated: nat,
                       chunksDropped: nat)

  /** Byte accounting. */
  datatype Ledger = Ledger(accepted: nat, forwarded: nat, discarded: nat, lossDiscarded: nat)

  /** `handle` is the value of the durable termination slot shared with the embedding runtime. */
  datatype Engine = Engine(
    pipe: Pipe, loss: Loss, ledger: Ledger, termination: Option<TerminationInfo>, handle: Option<TerminationInfo>,
    timer: Timer, limit: Option<Limit>)

  // --- Compiling a plan ---

  datatype Compiling = Compiling(
    maxBuffer: pos, limit: Option<Limit>, blackhole: Option<BlackholeState>, disconnect: Option<DisconnectState>,
    bandwidth: Option<(pos, pos)>, slicerActive: bool,
    active: seq<bool>, rngs: seq<Rng>, loss: seq<Option<LossState>>)

  const NOTHING_COMPILED := Compiling(DEFAULT_BUFFER, None, None, None, None, false, [], [], [])

  function MergeBlackhole(old_: Option<BlackholeState>, deadline: Option<nat>, id: string): Option<BlackholeState> {
    if old_.Some? && old_.value.deadline.None? then old_
    else if deadline.None? then Some(BlackholeState(None, id))
    else if old_.Some? && old_.value.deadline.value <= deadline.value then old_
    else Some(BlackholeState(deadline, id))
  }

  function MergeDisconnect(old_: Option<DisconnectState>, deadline: nat, hardReset: bool,
                           id: string): Option<DisconnectState> {
    if old_.None? || deadline < old_.value.deadline ||
      (deadline == old_.value.deadline && hardReset && !old_.value.hardReset)
    then Some(DisconnectState(deadline, hardReset, id))
    else old_
  }

  /** Fold one fault into the compilation: draw its activation, merge it if active. */
  function CompileFault(seeds: Seeds, now: nat, acc: Compiling, f: FaultSpec): Compiling {
    var (active, rng) := Rng(seeds.step, seeds.activation(f.id)).Bernoulli(f.probability);
    var lossState := LossState(Rng(seeds.step, seeds.loss(f.id)), None, false);
    var base := acc.(active := acc.active + [active], rngs := acc.rngs + [rng],
                     loss := acc.loss + [if active && f.kind.StreamLoss? then Some(lossState) else None]);
    if !active then base
    else
      match f.kind
      case Latency(_, _, maxBufferBytes) => base.(maxBuffer := Min(acc.maxBuffer, maxBufferBytes))
      case LimitData(bytes) =>
        if acc.limit.None? || bytes < acc.limit.value.remaining then base.(limit := Some(Limit(bytes, f.id))) else base
      case Blackhole(closeAfter) =>
        var deadline := if closeAfter.Some? then Some(now + closeAfter.value) else None;
        base.(blackhole := MergeBlackhole(acc.blackhole, deadline, f.id))
      case Bandwidth(rate, burst) =>
        base.(bandwidth := Some(if acc.bandwidth.Some?
                                then (Min(acc.bandwidth.value.0, rate), Min(acc.bandwidth.value.1, burst))
                                else (rate, burst)))
      case Slice(_, _, _) => base.(slicerActive := true)
      case Disconnect(after, hardReset) =>
        base.(disconnect := MergeDisconnect(acc.disconnect, now + after, hardReset, f.id))
      case _ => base
  }

  function CompileFrom(seeds: Seeds, now: nat, acc: Compiling, faults: seq<FaultSpec>): Compiling
    decreases |faults|
  {
    if faults == [] then acc else CompileFrom(seeds, now, CompileFault(seeds, now, acc, faults[0]), faults[1..])
  }

  function ConfigOf(faults: seq<FaultSpec>, seeds: Seeds, direction: Direction, now: nat): Config {
    var k := CompileFrom(seeds, now, NOTHING_COMPILED, faults);
    Config(faults, k.active, seeds, direction, k.maxBuffer, k.limit, k.blackhole, k.disconnect, k.bandwidth,
           k.slicerActive)
  }

  /** A freshly compiled engine sharing a termination slot that may already hold a request. */
  function FreshEngine(faults: seq<FaultSpec>, seeds: Seeds, now: nat, handle: Option<TerminationInfo>): Engine {
    var k := CompileFrom(seeds, now, NOTHING_COMPILED, faults);
    var bucket := if k.bandwidth.Some? then Some(NewBucket(k.bandwidth.value.0, k.bandwidth.value.1, now)) else None;
    Engine(Pipe([], 0, 0, k.rngs, bucket, now, Work(0, 0, 0, 0)), Loss(k.loss, 0, 0, 0, 0),
           Ledger(0, 0, 0, 0), handle, handle, Idle, k.limit)
  }

  // --- Termination ---

  /** First published request wins, in the shared slot and in the engine. */
  function Publish(s: Engine, info: TerminationInfo): Engine {
    s.(handle := if s.handle.None? then Some(info) else s.handle,
       termination := if s.termination.None? then Some(info) else s.termination)
  }

  /** Publish a due disconnect, or else the close of a finite blackhole. */
  function Refresh(c: Config, s: Engine, now: nat): Engine {
    if s.termination.Some? then s
    else if c.disconnect.Some? && now >= c.disconnect.value.deadline then
      var d := c.disconnect.value;
      Publish(s, TerminationInfo(if d.hardReset then HardReset else Graceful, c.direction, d.faultId))
    else if c.blackhole.Some? && c.blackhole.value.deadline.Some? && now >= c.blackhole.value.deadline.value then
      Publish(s, TerminationInfo(Graceful, c.direction, c.blackhole.value.faultId))
    else s
  }

  predicate Discarding(c: Config, now: nat) {
    c.blackhole.Some? && (c.blackhole.value.deadline.None? || now < c.blackhole.value.deadline.value)
  }

  /** Take n accepted bytes off the byte limit; publish its termination on exhaustion. */
  function ChargeLimit(c: Config, s: Engine, n: nat): Engine {
    if s.limit.None? then s
    else
      var left := Minus(s.limit.value.remaining, n);
      var t := s.(limit := Some(s.limit.value.(remaining := left)));
      if left == 0 then Publish(t, TerminationInfo(Graceful, c.direction, s.limit.value.id)) else t
  }

  // --- One queued segment ---

  function NewBucket(rate: pos, burst: pos, now: nat): TokenBucket {
    TokenBucket(rate, burst * 1_000_000, burst * 1_000_000, now)
  }

  function Refill(b: TokenBucket, now: nat): TokenBucket {
    if now <= b.last then b
    else b.(tokens := Min(b.tokens + (now - b.last) * b.rate / 1_000, b.capacity), last := now)
  }

  function CeilMillis(nanos: nat): nat { (nanos + 999_999) / 1_000_000 }

  /** Returns the bucket, the release time, and the throttle delay in milliseconds. */
  function Consume(b0: TokenBucket, len: nat, now: nat, earliest: nat): (r: (TokenBucket, nat, nat))
    ensures earliest <= r.1 && now <= r.1
  {
    var b := Refill(b0, now);
    var need := len * 1_000_000;
    var base := Max(earliest, now);
    if b.tokens >= need then (b.(tokens := b.tokens - need), base, 0)
    else
      var wait := Min(((need - b.tokens) * 1_000 + b.rate - 1) / b.rate, U64_MAX);
      var release := Max(base, now + wait);
      (b.(tokens := 0), release, Min(CeilMillis(release - base), U64_MAX))
  }

  /** Accumulated effect of the delay stages on one segment. */
  datatype Delays = Delays(rngs: seq<Rng>, release: nat, sliceDelay: nat, injectedMs: nat)

  function LatencyNanos(delay: nat, jitter: nat, rng: Rng): (nat, Rng) {
    var range := Min(jitter, U64_MAX);
    if range == 0 then (Max(0, Min(delay, U64_MAX)), rng)
    else
      var (x, g) := rng.Below(PlusU64(Min(2 * range, U64_MAX), 1));
      (Max(0, Min(delay + x - range, U64_MAX)), g)
  }

  function WholeMillis(nanos: nat): nat { nanos / 1_000_000 }

  function DelayStage(c: Config, i: nat, d: Delays): Delays
    requires i < |c.faults|
  {
    if i >= |c.active| || !c.active[i] || i >= |d.rngs| then d
    else
      match c.faults[i].kind
      case Latency(delay, jitter, _) =>
        var (nanos, g) := LatencyNanos(delay, jitter, d.rngs[i]);
        d.(rngs := d.rngs[i := g], release := d.release + nanos, injectedMs := d.injectedMs + WholeMillis(nanos))
      case Slice(_, _, delay) => d.(sliceDelay := Max(d.sliceDelay, delay))
      case _ => d
  }

  /** Stages i, i+1, ... of the per-segment delay loop. */
  function DelayStages(c: Config, i: nat, d: Delays): Delays
    requires i <= |c.faults|
    decreases |c.faults| - i
  {
    if i == |c.faults| then d else DelayStages(c, i + 1, DelayStage(c, i, d))
  }

  /** Queue one segment behind its release time. */
  function PushSegment(c: Config, p: Pipe, bytes: seq<Byte>, now: nat): Pipe {
    var d := DelayStages(c, 0, Delays(p.rngs, now, 0, p.work.injectedMs));
    var (bucket, paced, throttled) :=
      if p.bucket.Some? then
        var (b, r, ms) := Consume(p.bucket.value, |bytes|, now, d.release);
        (Some(b), r, ms)
      else (None, d.release, 0);
    var staggered := c.slicerActive && d.sliceDelay > 0;
    var release := if staggered then Max(paced, p.sliceCursor) else paced;
    Pipe(p.queue + [Queued(bytes, release)], p.buffered + |bytes|, Max(p.highWater, p.buffered + |bytes|),
         d.rngs, bucket, if staggered then release + d.sliceDelay else p.sliceCursor,
         Work(p.work.segments + 1, if c.slicerActive then p.work.slices + 1 else p.work.slices,
              d.injectedMs, p.work.throttledMs + throttled))
  }

  // --- Slicing a run into segments ---

  function SliceStage(c: Config, i: nat, rngs: seq<Rng>, size: nat): (nat, seq<Rng>)
    requires i < |c.faults|
  {
    if i >= |c.active| || !c.active[i] || i >= |rngs| || !c.faults[i].kind.Slice? then (size, rngs)
    else
      var k := c.faults[i].kind;
      var (x, g) := rngs[i].Below(PlusU64(Min(2 * k.variation, U64_MAX), 1));
      var stageSize := Max(1, PlusU64(Minus(k.averageSize, k.variation), x));
      (Min(size, stageSize), rngs[i := g])
  }

  function SliceStages(c: Config, i: nat, rngs: seq<Rng>, size: nat): (nat, seq<Rng>)
    requires i <= |c.faults|
    decreases |c.faults| - i
  {
    if i == |c.faults| then (size, rngs)
    else
      var (z, g) := SliceStage(c, i, rngs, size);
      SliceStages(c, i + 1, g, z)
  }

  /** The next segment length: the whole run, or the smallest draw of the active slicers. */
  function NextSize(c: Config, rngs: seq<Rng>, remaining: pos): (r: (pos, seq<Rng>))
    ensures r.0 <= remaining
  {
    if !c.slicerActive then (remaining, rngs)
    else
      var (z, g) := SliceStages(c, 0, rngs, remaining);
      (Max(1, Min(z, remaining)), g)
  }

  /** Queue `data` segment by segment until the bounded queue cannot own the next one. Returns the
      number of bytes owned. */
  function PushRun(c: Config, p: Pipe, data: seq<Byte>, now: nat): (r: (Pipe, nat))
    ensures r.1 <= |data|
    decreases |data|
  {
    if data == [] then (p, 0)
    else
      var (n, rngs) := NextSize(c, p.rngs, |data|);
      if p.buffered + n > c.maxBuffer then (p.(rngs := rngs), 0)
      else
        var (q, m) := PushRun(c, PushSegment(c, p.(rngs := rngs), data[..n], now), data[n..], now);
        (q, n + m)
  }

  // --- Stream loss ---

  function ChunkOf(offset: nat): nat { offset / GRAIN }

  function Draw(kind: FaultKind, rng: Rng, prevDropped: bool): (bool, Rng)
    requires kind.StreamLoss?
  {
    var correlated := if kind.lossRate + kind.correlation < 1.0 then kind.lossRate + kind.correlation else 1.0;
    rng.Bernoulli(if prevDropped then correlated else kind.lossRate)
  }

  /** n further draws of one fault's chunk stream. */
  function Draws(kind: FaultKind, rng: Rng, prevDropped: bool, n: nat): (bool, Rng)
    requires kind.StreamLoss?
    decreases n
  {
    if n == 0 then (prevDropped, rng)
    else
      var (d, g) := Draw(kind, rng, prevDropped);
      Draws(kind, g, d, n - 1)
  }

  /** One fault's decision on one absolute chunk, advancing its stream past undecided chunks. */
  function DecideOne(kind: FaultKind, st: LossState, chunk: nat): (LossState, bool)
    requires kind.StreamLoss?
  {
    if st.decided.Some? && st.decided.value.0 == chunk then (st, st.decided.value.1)
    else
      var start := if st.decided.Some? then st.decided.value.0 + 1 else 0;
      var last := st.decided.Some? && st.decided.value.1;
      var (d, g) := Draws(kind, st.rng, st.prevDropped, Minus(chunk + 1, start));
      var drop := if start <= chunk then d else last;
      (LossState(g, Some((chunk, drop)), d), drop)
  }

  function DecideFrom(c: Config, i: nat, states: seq<Option<LossState>>, chunk: nat,
                      dropAny: bool): (seq<Option<LossState>>, bool)
    requires i <= |c.faults|
    decreases |c.faults| - i
  {
    if i == |c.faults| then (states, dropAny)
    else if !c.faults[i].kind.StreamLoss? || i >= |states| ||
         states[i].None? then DecideFrom(c, i + 1, states, chunk, dropAny)
    else
      var (st, drop) := DecideOne(c.faults[i].kind, states[i].value, chunk);
      DecideFrom(c, i + 1, states[i := Some(st)], chunk, dropAny || drop)
  }

  /** The decision on one absolute chunk, counted once per chunk. */
  function Decide(c: Config, l: Loss, chunk: nat): (Loss, bool) {
    var (states, drop) := DecideFrom(c, 0, l.states, chunk, false);
    if chunk == l.evaluated then
      (Loss(states, l.offset, l.evaluated + 1, l.chunksEvaluated + 1, if drop then l.chunksDropped + 1
            else l.chunksDropped), drop)
    else (l.(states := states), drop)
  }

  /** One round of classification: the new state, the bytes taken, how many of them were discarded,
      and whether the call must stop because the queue cannot own the next preserved byte. */
  datatype Round = Round(pipe: Pipe, loss: Loss, taken: nat, discarded: nat, stop: bool)

  function ClassifyRound(c: Config, p: Pipe, l: Loss, data: seq<Byte>, now: nat): (r: Round)
    requires data != []
    ensures r.taken <= |data| && (r.taken == 0 ==> r.stop)
  {
    var chunk := ChunkOf(l.offset);
    var run: nat := Min((chunk + 1) * GRAIN - l.offset, |data|);
    if run == 0 then Round(p, l, 0, 0, true)
    else
      var (m, drop) := Decide(c, l, chunk);
      if drop then
        Round(p.(work := p.work.(segments := p.work.segments + 1)), m.(offset := l.offset + run), run, run, false)
      else
        var room: nat := Min(run, Minus(c.maxBuffer, p.buffered));
        if room == 0 then Round(p, m, 0, 0, true)
        else
          var (q, owned) := PushRun(c, p, data[..room], now);
          Round(q, m.(offset := l.offset + owned), owned, 0, owned < room)
  }

  datatype Classified = Classified(pipe: Pipe, loss: Loss, taken: nat, discarded: nat)

  /** Classify `data` chunk by chunk: dropped ranges vanish, preserved ranges are queued; stop at the
      first preserved byte the queue cannot own. */
  function Classify(c: Config, p: Pipe, l: Loss, data: seq<Byte>, now: nat): (r: Classified)
    ensures r.taken <= |data|
    decreases |data|
  {
    if data == [] then Classified(p, l, 0, 0)
    else
      var r := ClassifyRound(c, p, l, data, now);
      if r.stop then Classified(r.pipe, r.loss, r.taken, r.discarded)
      else
        var k := Classify(c, r.pipe, r.loss, data[r.taken..], now);
        Classified(k.pipe, k.loss, r.taken + k.taken, r.discarded + k.discarded)
  }

  // --- Acceptance ---

  predicate HasLoss(l: Loss) {
    exists i :: 0 <= i < |l.states| && l.states[i].Some?
  }

  /** How much of an input of length n the byte limit admits. */
  function WithinLimit(s: Engine, n: nat): (r: nat)
    ensures r <= n
  {
    if s.limit.Some? then Min(n, s.limit.value.remaining) else n
  }

  /** Account n accepted bytes, `dropped` of them lost, and charge the byte limit. */
  function Settle(c: Config, s: Engine, n: nat, discarded: nat, lost: nat): Engine {
    ChargeLimit(c, s.(ledger := s.ledger.(accepted := s.ledger.accepted + n,
                                          discarded := s.ledger.discarded + discarded,
                                          lossDiscarded := s.ledger.lossDiscarded + lost)), n)
  }

  function AcceptDiscarding(c: Config, s: Engine, n: nat): (Engine, nat) {
    var cap := WithinLimit(s, n);
    var pipe := s.pipe.(work := s.pipe.work.(segments := s.pipe.work.segments + 1));
    (Settle(c, s.(pipe := pipe), cap, cap, 0), cap)
  }

  function AcceptLossy(c: Config, s: Engine, input: seq<Byte>, now: nat): (Engine, nat) {
    var k := Classify(c, s.pipe, s.loss, input[..WithinLimit(s, |input|)], now);
    var t := s.(pipe := k.pipe, loss := k.loss);
    if k.taken == 0 then (t, 0) else (Settle(c, t, k.taken, k.discarded, k.discarded), k.taken)
  }

  function AcceptPreserving(c: Config, s: Engine, input: seq<Byte>, now: nat): (Engine, nat) {
    var cap: nat := Min(WithinLimit(s, |input|), Minus(c.maxBuffer, s.pipe.buffered));
    if cap == 0 then (s, 0)
    else
      var (pipe, n) := PushRun(c, s.pipe, input[..cap], now);
      var t := s.(pipe := pipe);
      if n == 0 then (t, 0) else (Settle(c, t, n, 0, 0), n)
  }

  /** The clock readings of one acceptance: for due terminations, for release times, and for the deadline
      of a blackhole. */
  datatype Clock = Clock(due: nat, now: nat, discard: nat)

  /** Accept a prefix of the caller's bytes; returns how many the engine now owns. */
  function Accept(c: Config, s0: Engine, input: seq<Byte>, clock: Clock): (Engine, nat) {
    var s := Refresh(c, s0, clock.due);
    if input == [] then (s, 0)
    else if s.limit.Some? && s.limit.value.remaining == 0 then
      (if s.termination.None? then Publish(s, TerminationInfo(Graceful, c.direction, s.limit.value.id)) else s, 0)
    else if Discarding(c, clock.discard) then AcceptDiscarding(c, s, |input|)
    else if HasLoss(s.loss) then AcceptLossy(c, s, input, clock.now)
    else AcceptPreserving(c, s, input, clock.now)
  }

  // --- Draining ---

  /** One poll of the timer at time `at`; `now` is the clock reading it is armed from. */
  function PollTimer(t: Timer, now: nat, deadline: nat, at: nat): (Timer, bool) {
    var armed := if t.Armed? && t.deadline == deadline then t else Armed(now + Minus(deadline, now), deadline);
    if at >= armed.fire then (Idle, true) else (armed, false)
  }

  datatype Reply = Pending | Wrote(n: nat) | Failure

  /** One round of the drain loop as the environment plays it: the clock reading, the later moment
      at which the timer and the inner writer are polled, and the writer's reply. */
  datatype Io = Io(now: nat, at: nat, reply: Reply)

  datatype Outcome = Drained | Blocked | Failed

  datatype Write = Write(bytes: seq<Byte>, at: nat, release: nat)

  function Forward(s: Engine, n: nat): Engine
    requires s.pipe.queue != [] && n <= |s.pipe.queue[0].bytes|
  {
    var front, rest := s.pipe.queue[0], s.pipe.queue[1..];
    s.(ledger := s.ledger.(forwarded := s.ledger.forwarded + n),
       pipe := s.pipe.(buffered := Minus(s.pipe.buffered, n),
                       queue := if n == |front.bytes| then rest else [front.(bytes := front.bytes[n..])] + rest))
  }

  /** What one round of the drain loop does: hand some bytes to the writer, or stop. */
  datatype Progress = Sent(write: Write) | Stopped(outcome: Outcome)

  function DrainOnce(s: Engine, e: Io): (Engine, Progress)
    requires s.pipe.queue != []
  {
    var front := s.pipe.queue[0];
    var (timer, due) := if front.release > e.now then PollTimer(s.timer, e.now, front.release, e.at)
      else (s.timer, true);
    var t := s.(timer := timer);
    if !due || e.reply.Pending? then (t, Stopped(Blocked))
    else if e.reply.Failure? || e.reply.n == 0 || e.reply.n > |front.bytes| then (t, Stopped(Failed))
    else (Forward(t, e.reply.n), Sent(Write(front.bytes[..e.reply.n], e.at, front.release)))
  }

  /** Drain due segments into the inner writer until it blocks, fails, or the queue is empty. */
  function Drain(s: Engine, io: seq<Io>): (Engine, seq<Write>, Outcome)
    decreases |io|
  {
    if s.pipe.queue == [] then (s, [], Drained)
    else if io == [] then (s, [], Blocked)
    else
      var (t, p) := DrainOnce(s, io[0]);
      if p.Stopped? then (t, [], p.outcome)
      else
        var (u, writes, outcome) := Drain(t, io[1..]);
        (u, [p.write] + writes, outcome)
  }

  // --- Evidence across generations ---

  datatype Evidence = Evidence(ledger: Ledger, work: Work, chunksEvaluated: nat, chunksDropped: nat, highWater: nat)

  function EvidenceOf(s: Engine): Evidence {
    Evidence(s.ledger, s.pipe.work, s.loss.chunksEvaluated, s.loss.chunksDropped, s.pipe.highWater)
  }

  /** Add a drained generation's cumulative counters; the high-water mark takes the maximum. */
  function Absorb(s: Engine, e: Evidence): Engine {
    var l, w := s.ledger, s.pipe.work;
    s.(ledger := Ledger(l.accepted + e.ledger.accepted, l.forwarded + e.ledger.forwarded,
                        l.discarded + e.ledger.discarded, l.lossDiscarded + e.ledger.lossDiscarded),
       pipe := s.pipe.(work := Work(w.segments + e.work.segments, w.slices + e.work.slices,
                                    w.injectedMs + e.work.injectedMs, w.throttledMs + e.work.throttledMs),
                       highWater := Max(s.pipe.highWater, e.highWater)),
       loss := s.loss.(chunksEvaluated := s.loss.chunksEvaluated + e.chunksEvaluated,
                       chunksDropped := s.loss.chunksDropped + e.chunksDropped))
  }
}
