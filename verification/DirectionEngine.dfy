/** The stream direction engine itself: fields updated in place by acceptance, classification and
    draining. Each method is tied to the function in `StreamEngine` that says what it computes, and
    the public ones keep the invariant of `StreamProofs` together with the engine's history. */
module DirectionEngines {
  import opened Common
  import opened StreamPlan
  import Spec = StreamEngine
  import opened StreamEngine
  import opened StreamLoss
  import opened StreamProofs
  import opened StreamRuns

  /** The durable, first-wins termination slot shared by the engines of one stream direction. */
  class TerminationHandle {
    var slot: Option<TerminationInfo>

    constructor ()
      ensures slot == None
    {
      slot := None;
    }

    method Publish(info: TerminationInfo) returns (set_: bool)
      modifies this
      ensures slot == if old(slot).None? then Some(info) else old(slot)
      ensures set_ == old(slot).None?
    {
      set_ := slot.None?;
      if set_ {
        slot := Some(info);
      }
    }
  }

  /** Compile the faults of a plan for one connection. */
  method Compile(faults: seq<FaultSpec>, seeds: Seeds, now: nat) returns (k: Compiling)
    ensures k == CompileFrom(seeds, now, NOTHING_COMPILED, faults)
  {
    k := NOTHING_COMPILED;
    var i := 0;
    while i < |faults|
      invariant 0 <= i <= |faults|
      invariant CompileFrom(seeds, now, k, faults[i..]) == CompileFrom(seeds, now, NOTHING_COMPILED, faults)
    {
      assert faults[i..][1..] == faults[i + 1..];
      k := CompileOne(faults[i], seeds, now, k);
      i := i + 1;
    }
  }

  method CompileOne(f: FaultSpec, seeds: Seeds, now: nat, acc: Compiling) returns (k: Compiling)
    ensures k == CompileFault(seeds, now, acc, f)
  {
    k := acc;
    var (active, rng) := Rng(seeds.step, seeds.activation(f.id)).Bernoulli(f.probability);
    if !active {
      return k.(active := k.active + [false], rngs := k.rngs + [rng], loss := k.loss + [None]);
    }
    match f.kind {
      case Latency(_, _, maxBufferBytes) =>
        k := k.(maxBuffer := Min(k.maxBuffer, maxBufferBytes));
      case LimitData(bytes) =>
        if k.limit.None? || bytes < k.limit.value.remaining {
          k := k.(limit := Some(Limit(bytes, f.id)));
        }
      case Blackhole(closeAfter) =>
        if closeAfter.None? {
          if k.blackhole.None? || k.blackhole.value.deadline.Some? {
            k := k.(blackhole := Some(BlackholeState(None, f.id)));
          }
        } else {
          var deadline := now + closeAfter.value;
          if k.blackhole.None? || (k.blackhole.value.deadline.Some? && deadline < k.blackhole.value.deadline.value) {
            k := k.(blackhole := Some(BlackholeState(Some(deadline), f.id)));
          }
        }
      case Bandwidth(rate, burst) =>
        if k.bandwidth.Some? {
          k := k.(bandwidth := Some((Min(k.bandwidth.value.0, rate), Min(k.bandwidth.value.1, burst))));
        } else {
          k := k.(bandwidth := Some((rate, burst)));
        }
      case Slice(_, _, _) =>
        k := k.(slicerActive := true);
      case Disconnect(after, hardReset) =>
        var deadline := now + after;
        if k.disconnect.None? || deadline < k.disconnect.value.deadline
           || (deadline == k.disconnect.value.deadline && hardReset && !k.disconnect.value.hardReset) {
          k := k.(disconnect := Some(DisconnectState(deadline, hardReset, f.id)));
        }
      case _ =>
    }
    var lossState := None;
    if f.kind.StreamLoss? {
      lossState := Some(LossState(Rng(seeds.step, seeds.loss(f.id)), None, false));
    }
    k := k.(active := k.active + [true], rngs := k.rngs + [rng], loss := k.loss + [lossState]);
  }

  class DirectionEngine {
    const config: Config
    const handle: TerminationHandle
    /** The release queue with its random streams, pacing state and counters. */
    var pipe: Pipe
    /** The stream-loss machinery. */
    var loss: Loss
    var ledger: Ledger
    var termination: Option<TerminationInfo>
    var queueTimer: Timer
    var remainingLimit: Option<Limit>
    /** Everything this engine has accepted and forwarded. */
    ghost var history: Trace

    ghost function Value(): Engine
      reads this, handle
    {
      Engine(pipe, loss, ledger, termination, handle.slot, queueTimer, remainingLimit)
    }

    ghost predicate Valid()
      reads this, handle
    {
      ConfigOk(config) && history.s == Value() && Inv(config, history)
    }

    constructor (faults: seq<FaultSpec>, seeds: Seeds, direction: Direction, now: nat, handle: TerminationHandle)
      ensures this.handle == handle && config == ConfigOf(faults, seeds, direction, now)
      ensures Value() == FreshEngine(faults, seeds, now, handle.slot)
      ensures history == Trace(Value(), [], [], 0, NO_BASE) && Valid()
    {
      var k := Compile(faults, seeds, now);
      config := Config(faults, k.active, seeds, direction, k.maxBuffer, k.limit, k.blackhole, k.disconnect, k.bandwidth,
                       k.slicerActive);
      this.handle := handle;
      var bucket := if k.bandwidth.Some? then Some(NewBucket(k.bandwidth.value.0, k.bandwidth.value.1, now)) else None;
      pipe := Pipe([], 0, 0, k.rngs, bucket, now, Work(0, 0, 0, 0));
      loss := Loss(k.loss, 0, 0, 0, 0);
      ledger := Ledger(0, 0, 0, 0);
      termination, queueTimer, remainingLimit := handle.slot, Idle, k.limit;
      new;
      history := Trace(Value(), [], [], 0, NO_BASE);
      FreshKeeps(faults, seeds, direction, now, handle.slot);
    }

    // --- Termination ---

    method PublishTermination(info: TerminationInfo)
      modifies this`termination, handle
      ensures Value() == Publish(old(Value()), info)
    {
      var _ := handle.Publish(info);
      if termination.None? {
        termination := Some(info);
      }
    }

    method RefreshTerminations(now: nat)
      modifies this`termination, handle
      ensures Value() == Refresh(config, old(Value()), now)
    {
      if termination.Some? {
        return;
      }
      if config.disconnect.Some? {
        var d := config.disconnect.value;
        if now >= d.deadline {
          PublishTermination(TerminationInfo(if d.hardReset then HardReset else Graceful, config.direction, d.faultId));
          return;
        }
      }
      if config.blackhole.Some? && config.blackhole.value.deadline.Some? {
        if now >= config.blackhole.value.deadline.value {
          PublishTermination(TerminationInfo(Graceful, config.direction, config.blackhole.value.faultId));
        }
      }
    }

    /** Account n accepted bytes and take them off the byte limit. */
    method SettleAccepted(n: nat, discarded: nat, lost: nat)
      modifies this`ledger, this`remainingLimit, this`termination, handle
      ensures Value() == Settle(config, old(Value()), n, discarded, lost)
    {
      ledger := ledger.(accepted := ledger.accepted + n);
      ledger := ledger.(discarded := ledger.discarded + discarded, lossDiscarded := ledger.lossDiscarded + lost);
      if remainingLimit.Some? {
        var limit := remainingLimit.value;
        remainingLimit := Some(limit.(remaining := Minus(limit.remaining, n)));
        if remainingLimit.value.remaining == 0 {
          PublishTermination(TerminationInfo(Graceful, config.direction, limit.id));
        }
      }
    }

    // --- The preserving pipeline ---

    /** The next slice length, drawn from every active slicer. */
    method NextSliceSize(remaining: pos) returns (size: pos)
      requires config.slicerActive
      modifies this`pipe
      ensures var (n, g) := NextSize(config, old(pipe).rngs, remaining);
              size == n && pipe == old(pipe).(rngs := g)
    {
      var rngs := pipe.rngs;
      var smallest: nat := remaining;
      var i := 0;
      while i < |config.faults|
        invariant 0 <= i <= |config.faults|
        invariant SliceStages(config, i, rngs, smallest) == SliceStages(config, 0, pipe.rngs, remaining)
        invariant pipe == old(pipe)
      {
        if i < |config.active| && config.active[i] && i < |rngs| && config.faults[i].kind.Slice? {
          var k := config.faults[i].kind;
          var (x, g) := rngs[i].Below(PlusU64(Min(2 * k.variation, U64_MAX), 1));
          rngs := rngs[i := g];
          var stageSize := Max(1, PlusU64(Minus(k.averageSize, k.variation), x));
          smallest := Min(smallest, stageSize);
        }
        i := i + 1;
      }
      pipe := pipe.(rngs := rngs);
      size := Max(1, Min(smallest, remaining));
    }

    /** Run the delay stages for one segment. */
    method DelaySegment(now: nat) returns (release: nat, sliceDelay: nat)
      modifies this`pipe
      ensures var d := DelayStages(config, 0, Delays(old(pipe).rngs, now, 0, old(pipe).work.injectedMs));
              && release == d.release && sliceDelay == d.sliceDelay
              && pipe == old(pipe).(rngs := d.rngs, work := old(pipe).work.(injectedMs := d.injectedMs))
    {
      var rngs, injectedMs: nat := pipe.rngs, pipe.work.injectedMs;
      release, sliceDelay := now, 0;
      var i := 0;
      while i < |config.faults|
        invariant 0 <= i <= |config.faults|
        invariant DelayStages(config, i, Delays(rngs, release, sliceDelay, injectedMs))
               == DelayStages(config, 0, Delays(pipe.rngs, now, 0, pipe.work.injectedMs))
        invariant pipe == old(pipe)
      {
        if i < |config.active| && config.active[i] && i < |rngs| {
          match config.faults[i].kind {
            case Latency(delay, jitter, _) =>
              var (nanos, g) := LatencyNanos(delay, jitter, rngs[i]);
              rngs := rngs[i := g];
              release := release + nanos;
              injectedMs := injectedMs + WholeMillis(nanos);
            case Slice(_, _, delay) =>
              sliceDelay := Max(sliceDelay, delay);
            case _ =>
          }
        }
        i := i + 1;
      }
      pipe := pipe.(rngs := rngs, work := pipe.work.(injectedMs := injectedMs));
    }

    /** Queue one segment behind its release time. */
    method QueueSegment(bytes: seq<Byte>, now: nat)
      modifies this`pipe
      ensures pipe == PushSegment(config, old(pipe), bytes, now)
    {
      var release, sliceDelay := DelaySegment(now);
      if pipe.bucket.Some? {
        var (bucket, paced, throttled) := Consume(pipe.bucket.value, |bytes|, now, release);
        pipe := pipe.(bucket := Some(bucket));
        release := paced;
        pipe := pipe.(work := pipe.work.(throttledMs := pipe.work.throttledMs + throttled));
      }
      if config.slicerActive && sliceDelay > 0 {
        release := Max(release, pipe.sliceCursor);
        pipe := pipe.(sliceCursor := release + sliceDelay);
      }
      pipe := pipe.(queue := pipe.queue + [Queued(bytes, release)]);
      pipe := pipe.(buffered := pipe.buffered + |bytes|);
      pipe := pipe.(highWater := Max(pipe.highWater, pipe.buffered));
      pipe := pipe.(work := pipe.work.(segments := pipe.work.segments + 1));
      if config.slicerActive {
        pipe := pipe.(work := pipe.work.(slices := pipe.work.slices + 1));
      }
    }

    /** Queue the next segment of `rest`, or nothing if the queue cannot own it. */
    method PushNext(rest: seq<Byte>, now: nat) returns (n: nat)
      requires rest != []
      modifies this`pipe
      ensures var (k, rngs) := NextSize(config, old(pipe).rngs, |rest|);
              var p := old(pipe).(rngs := rngs);
              if p.buffered + k > config.maxBuffer then n == 0 && pipe == p
              else n == k && pipe == PushSegment(config, p, rest[..k], now)
    {
      var chunk: pos := |rest|;
      if config.slicerActive {
        chunk := NextSliceSize(|rest|);
      }
      if pipe.buffered + chunk > config.maxBuffer {
        return 0;
      }
      QueueSegment(rest[..chunk], now);
      n := chunk;
    }

    method PushPreserveRun(data: seq<Byte>, now: nat) returns (offset: nat)
      modifies this`pipe
      ensures (pipe, offset) == PushRun(config, old(pipe), data, now)
    {
      offset := 0;
      var rest := data;
      while rest != []
        invariant offset + |rest| == |data|
        invariant PushRun(config, old(pipe), data, now) == PlusOwned(offset, PushRun(config, pipe, rest, now))
        decreases |rest|
      {
        PushRunUnfolds(config, pipe, rest, now);
        var n := PushNext(rest, now);
        if n == 0 {
          return;
        }
        offset := offset + n;
        rest := rest[n..];
      }
    }

    // --- Stream loss ---

    /** One fault's decision on a chunk, drawing for every chunk since its last decision. */
    method DecideFault(kind: FaultKind, conn: LossState, chunk: nat) returns (st: LossState, drop: bool)
      requires kind.StreamLoss?
      ensures (st, drop) == DecideOne(kind, conn, chunk)
    {
      if conn.decided.Some? && conn.decided.value.0 == chunk {
        return conn, conn.decided.value.1;
      }
      var start := if conn.decided.Some? then conn.decided.value.0 + 1 else 0;
      drop := conn.decided.Some? && conn.decided.value.1;
      ghost var last := drop;
      var rng, prev := conn.rng, conn.prevDropped;
      ghost var all := Draws(kind, rng, prev, Minus(chunk + 1, start));
      var k := start;
      while k <= chunk
        invariant Draws(kind, rng, prev, Minus(chunk + 1, k)) == all
        invariant start <= k && (k > start ==> drop == prev)
        invariant k == start || k <= chunk + 1
        invariant k == start ==> drop == last
      {
        var (d, g) := Draw(kind, rng, prev);
        drop, prev, rng := d, d, g;
        k := k + 1;
      }
      st := LossState(rng, Some((chunk, drop)), prev);
    }

    method DecideStreamLossChunk(chunk: nat) returns (dropAny: bool)
      modifies this`loss
      ensures (loss, dropAny) == Decide(config, old(loss), chunk)
    {
      var states := loss.states;
      dropAny := false;
      var i := 0;
      while i < |config.faults|
        invariant 0 <= i <= |config.faults| && loss == old(loss)
        invariant DecideFrom(config, i, states, chunk, dropAny) == DecideFrom(config, 0, loss.states, chunk, false)
      {
        if config.faults[i].kind.StreamLoss? && i < |states| && states[i].Some? {
          var st, drop := DecideFault(config.faults[i].kind, states[i].value, chunk);
          states := states[i := Some(st)];
          dropAny := dropAny || drop;
        }
        i := i + 1;
      }
      loss := loss.(states := states);
      if chunk == loss.evaluated {
        loss := loss.(evaluated := loss.evaluated + 1);
        loss := loss.(chunksEvaluated := loss.chunksEvaluated + 1);
        if dropAny {
          loss := loss.(chunksDropped := loss.chunksDropped + 1);
        }
      }
    }

    /** One round of the classification loop. */
    method ClassifyOnce(data: seq<Byte>, now: nat) returns (taken: nat, discarded: nat, stop: bool)
      requires data != []
      modifies this`pipe, this`loss
      ensures Round(pipe, loss, taken, discarded, stop) == ClassifyRound(config, old(pipe), old(loss), data, now)
    {
      var chunk := ChunkOf(loss.offset);
      var run: nat := Min((chunk + 1) * GRAIN - loss.offset, |data|);
      if run == 0 {
        return 0, 0, true;
      }
      var drop := DecideStreamLossChunk(chunk);
      if drop {
        loss := loss.(offset := loss.offset + run);
        pipe := pipe.(work := pipe.work.(segments := pipe.work.segments + 1));
        return run, run, false;
      }
      var capacity := Minus(config.maxBuffer, pipe.buffered);
      run := Min(run, capacity);
      if run == 0 {
        return 0, 0, true;
      }
      var owned := PushPreserveRun(data[..run], now);
      loss := loss.(offset := loss.offset + owned);
      return owned, 0, owned < run;
    }

    /** Classify `data` chunk by chunk until it is used up or the queue is full. */
    method ClassifyAll(data: seq<Byte>, now: nat) returns (offset: nat, discarded: nat)
      modifies this`pipe, this`loss
      ensures Classified(pipe, loss, offset, discarded) == Classify(config, old(pipe), old(loss), data, now)
    {
      offset, discarded := 0, 0;
      ghost var rest := data;
      while offset < |data|
        invariant 0 <= offset <= |data| && rest == data[offset..]
        invariant Classify(config, old(pipe), old(loss), data, now)
               == PlusClassified(offset, discarded, Classify(config, pipe, loss, rest, now))
      {
        ghost var p, l := pipe, loss;
        var taken, dropped, stop := ClassifyOnce(data[offset..], now);
        ClassifyUnfolds(config, p, l, rest, now, Round(pipe, loss, taken, dropped, stop));
        offset := offset + taken;
        discarded := discarded + dropped;
        if stop {
          return;
        }
        rest := rest[taken..];
      }
    }

    method AcceptWithStreamLoss(input: seq<Byte>, now: nat) returns (offset: nat)
      modifies this, handle
      ensures (Value(), offset) == AcceptLossy(config, old(Value()), input, now) && history == old(history)
    {
      var limitCap := if remainingLimit.Some? then Min(|input|, remainingLimit.value.remaining) else |input|;
      var discarded;
      offset, discarded := ClassifyAll(input[..limitCap], now);
      if offset == 0 {
        return;
      }
      SettleAccepted(offset, discarded, discarded);
    }

    // --- Acceptance ---

    /** Accept a prefix of `input`; on return the engine owns exactly those bytes. */
    method Accept(input: seq<Byte>, clock: Clock) returns (n: nat)
      requires Valid()
      modifies this, handle
      ensures Valid() && history == Accepted(config, old(history), input, clock)
      ensures (Value(), n) == Spec.Accept(config, old(Value()), input, clock) && n <= |input|
    {
      AcceptKeeps(config, history, input, clock);
      n := AcceptInput(input, clock);
      history := Accepted(config, history, input, clock);
    }

    method AcceptInput(input: seq<Byte>, clock: Clock) returns (n: nat)
      modifies this, handle
      ensures (Value(), n) == Spec.Accept(config, old(Value()), input, clock) && history == old(history)
    {
      RefreshTerminations(clock.due);
      if input == [] {
        n := 0;
      } else if remainingLimit.Some? && remainingLimit.value.remaining == 0 {
        if termination.None? {
          PublishTermination(TerminationInfo(Graceful, config.direction, remainingLimit.value.id));
        }
        n := 0;
      } else if Discarding(config, clock.discard) {
        n := if remainingLimit.Some? then Min(|input|, remainingLimit.value.remaining) else |input|;
        pipe := pipe.(work := pipe.work.(segments := pipe.work.segments + 1));
        SettleAccepted(n, n, 0);
      } else if exists i :: 0 <= i < |loss.states| && loss.states[i].Some? {
        n := AcceptWithStreamLoss(input, clock.now);
      } else {
        n := AcceptPreserved(input, clock.now);
      }
    }

    method AcceptPreserved(input: seq<Byte>, now: nat) returns (n: nat)
      modifies this, handle
      ensures (Value(), n) == AcceptPreserving(config, old(Value()), input, now) && history == old(history)
    {
      var limited := if remainingLimit.Some? then Min(|input|, remainingLimit.value.remaining) else |input|;
      var cap: nat := Min(limited, Minus(config.maxBuffer, pipe.buffered));
      if cap == 0 {
        return 0;
      }
      n := PushPreserveRun(input[..cap], now);
      if n == 0 {
        return;
      }
      SettleAccepted(n, 0, 0);
    }

    /** Accept a list of slices, copying only the prefix the engine can own when the plan preserves
        every byte. The result is that of accepting their concatenation. */
    method AcceptVectored(bufs: seq<seq<Byte>>, clock: Clock) returns (n: nat)
      requires Valid()
      modifies this, handle
      ensures Valid() && history == Accepted(config, old(history), Joined(bufs), clock)
      ensures (Value(), n) == Spec.Accept(config, old(Value()), Joined(bufs), clock)
    {
      ghost var before := history;
      ghost var all := Joined(bufs);
      var total := 0;
      for i := 0 to |bufs|
        invariant total + |Joined(bufs[i..])| == |all|
        invariant Valid() && history == before && Value() == old(Value())
      {
        assert bufs[i..][1..] == bufs[i + 1..];
        total := total + |bufs[i]|;
      }
      assert bufs[|bufs|..] == [];
      if total == 0 {
        assert all == [];
        n := Accept([], clock);
        return;
      }
      var take := total;
      if PreservingOnly(config.faults) {
        take := Min(total, BoundedAcceptCapacity());
        PrefixSuffices(config, before, all, clock);
      }
      var joined := CopyPrefix(bufs, take);
      assert joined == all[..take] && all[..|all|] == all;
      n := Accept(joined, clock);
      VectoredHistory(config, before, all, joined, clock);
    }

    function BoundedAcceptCapacity(): nat
      reads this
    {
      var capacity := Minus(config.maxBuffer, pipe.buffered);
      if remainingLimit.Some? then Min(remainingLimit.value.remaining, capacity) else capacity
    }

    /** Add cumulative counters; the high-water mark takes the maximum. */
    method AddCounters(e: Evidence)
      modifies this`ledger, this`pipe, this`loss
      ensures Value() == Absorb(old(Value()), e)
    {
      var l, w := ledger, pipe.work;
      ledger := Ledger(l.accepted + e.ledger.accepted, l.forwarded + e.ledger.forwarded,
                       l.discarded + e.ledger.discarded, l.lossDiscarded + e.ledger.lossDiscarded);
      pipe := pipe.(work := Work(w.segments + e.work.segments, w.slices + e.work.slices,
                                 w.injectedMs + e.work.injectedMs, w.throttledMs + e.work.throttledMs));
      loss := loss.(chunksEvaluated := loss.chunksEvaluated + e.chunksEvaluated,
                    chunksDropped := loss.chunksDropped + e.chunksDropped);
      pipe := pipe.(highWater := Max(pipe.highWater, e.highWater));
    }

    /** Absorb the counters of the engine this fresh one replaces. */
    method AbsorbEvidence(e: Evidence, ghost d: Config, ghost previous: Trace)
      requires Valid() && history == Trace(Value(), [], [], 0, NO_BASE)
      requires Inv(d, previous) && e == EvidenceOf(previous.s)
      modifies this
      ensures Valid() && Value() == Absorb(old(Value()), e) && history == Trace(Value(), [], [], 0, BaseAfter(previous))
    {
      AbsorbKeeps(config, history, d, previous);
      AddCounters(e);
      history := Trace(Value(), [], [], 0, BaseAfter(previous));
    }

    // --- Draining ---

    /** Drain the queue into the inner writer played by `io`. */
    method PollQueue(io: seq<Io>) returns (writes: seq<Write>, outcome: Outcome)
      requires Valid() && Clocked(io)
      modifies this
      ensures Valid() && history == Flushed(old(history), io)
      ensures (Value(), writes, outcome) == Drain(old(Value()), io)
    {
      DrainKeeps(config, history, io);
      writes, outcome := DrainQueue(io);
      history := Flushed(history, io);
    }

    method DrainQueue(io: seq<Io>) returns (writes: seq<Write>, outcome: Outcome)
      modifies this`pipe, this`ledger, this`queueTimer
      ensures (Value(), writes, outcome) == Drain(old(Value()), io)
    {
      writes := [];
      var i := 0;
      ghost var rest := io;
      ghost var all := Drain(Value(), io);
      assert [] + all.1 == all.1;
      while pipe.queue != [] && i < |io|
        invariant 0 <= i <= |io| && rest == io[i..]
        invariant all == PlusWrites(writes, Drain(Value(), rest))
        decreases |io| - i
      {
        DrainUnfolds(Value(), rest);
        var step := WriteFront(io[i]);
        if step.Stopped? {
          assert writes + [] == writes;
          return writes, step.outcome;
        }
        PlusWritesAssoc(writes, step.write, Drain(Value(), rest[1..]));
        writes := writes + [step.write];
        rest := rest[1..];
        i := i + 1;
      }
      assert writes + [] == writes;
      outcome := if pipe.queue == [] then Drained else Blocked;
    }

    /** One round of the drain loop. */
    method WriteFront(e: Io) returns (step: Progress)
      requires pipe.queue != []
      modifies this`pipe, this`ledger, this`queueTimer
      ensures (Value(), step) == DrainOnce(old(Value()), e)
    {
      var front := pipe.queue[0];
      if front.release > e.now {
        var due;
        queueTimer, due := PollQueueTimer(e.now, front.release, e.at);
        if !due {
          return Stopped(Blocked);
        }
      }
      if e.reply.Pending? {
        return Stopped(Blocked);
      }
      if e.reply.Failure? || e.reply.n == 0 || e.reply.n > |front.bytes| {
        return Stopped(Failed);
      }
      var n := e.reply.n;
      ledger := ledger.(forwarded := ledger.forwarded + n);
      pipe := pipe.(buffered := Minus(pipe.buffered, n));
      if n == |front.bytes| {
        pipe := pipe.(queue := pipe.queue[1..]);
      } else {
        pipe := pipe.(queue := [front.(bytes := front.bytes[n..])] + pipe.queue[1..]);
      }
      step := Sent(Write(front.bytes[..n], e.at, front.release));
    }

    method PollQueueTimer(now: nat, deadline: nat, at: nat) returns (timer: Timer, due: bool)
      ensures (timer, due) == PollTimer(queueTimer, now, deadline, at)
    {
      timer := queueTimer;
      if timer.Idle? || timer.deadline != deadline {
        timer := Armed(now + Minus(deadline, now), deadline);
      }
      due := at >= timer.fire;
      if due {
        timer := Idle;
      }
    }
  }

  /** The outcome of a classification of which `taken` bytes were already accounted. */
  ghost function PlusClassified(taken: nat, discarded: nat, k: Classified): Classified {
    Classified(k.pipe, k.loss, taken + k.taken, discarded + k.discarded)
  }

  lemma {:induction false} ClassifyUnfolds(c: Config, p: Pipe, l: Loss, data: seq<Byte>, now: nat, r: Round)
    requires data != [] && r == ClassifyRound(c, p, l, data, now)
    ensures Classify(c, p, l, data, now)
         == if r.stop then Classified(r.pipe, r.loss, r.taken, r.discarded)
            else PlusClassified(r.taken, r.discarded, Classify(c, r.pipe, r.loss, data[r.taken..], now))
  {
  }

  lemma {:induction false} PushRunUnfolds(c: Config, p: Pipe, data: seq<Byte>, now: nat)
    requires data != []
    ensures var (n, rngs) := NextSize(c, p.rngs, |data|);
            PushRun(c, p, data, now)
              == if p.buffered + n > c.maxBuffer then (p.(rngs := rngs), 0)
                 else PlusOwned(n, PushRun(c, PushSegment(c, p.(rngs := rngs), data[..n], now), data[n..], now))
  {
  }

  lemma {:induction false} DrainUnfolds(s: Engine, io: seq<Io>)
    requires s.pipe.queue != [] && io != []
    ensures var (t, p) := DrainOnce(s, io[0]);
            Drain(s, io) == if p.Stopped? then (t, [], p.outcome) else PlusWrites([p.write], Drain(t, io[1..]))
  {
  }

  lemma {:induction false} PlusWritesAssoc(writes: seq<Write>, w: Write, r: (Engine, seq<Write>, Outcome))
    ensures PlusWrites(writes, PlusWrites([w], r)) == PlusWrites(writes + [w], r)
  {
    assert writes + ([w] + r.1) == (writes + [w]) + r.1;
  }

  ghost function PlusOwned(owned: nat, r: (Pipe, nat)): (Pipe, nat) {
    (r.0, owned + r.1)
  }

  ghost function PlusWrites(writes: seq<Write>, r: (Engine, seq<Write>, Outcome)): (Engine, seq<Write>, Outcome) {
    (r.0, writes + r.1, r.2)
  }

  function Joined(bufs: seq<seq<Byte>>): seq<Byte> {
    if bufs == [] then [] else bufs[0] + Joined(bufs[1..])
  }

  /** The first `take` bytes of the slices. */
  method CopyPrefix(bufs: seq<seq<Byte>>, take: nat) returns (joined: seq<Byte>)
    requires take <= |Joined(bufs)|
    ensures joined == Joined(bufs)[..take]
  {
    joined := [];
    var remaining: nat := take;
    var rest := bufs;
    while rest != [] && remaining > 0
      invariant |joined| + remaining == take && remaining <= |Joined(rest)|
      invariant joined + Joined(rest)[..remaining] == Joined(bufs)[..take]
      decreases |rest|
    {
      var n := Min(|rest[0]|, remaining);
      PrefixSplit(joined, rest[0], Joined(rest[1..]), remaining);
      joined := joined + rest[0][..n];
      remaining := remaining - n;
      rest := rest[1..];
    }
  }

  lemma {:induction false} PrefixSplit(joined: seq<Byte>, a: seq<Byte>, b: seq<Byte>, k: nat)
    requires k <= |a + b|
    ensures var n := Min(|a|, k); joined + (a + b)[..k] == (joined + a[..n]) + b[..k - n]
  {
  }

  /** One turn of a relay: offer up to `length` bytes at `clock`, then drain against `io`. */
  datatype Turn = Turn(length: nat, clock: Clock, io: seq<Io>)

  /** A relay that copies `stream` through a fresh engine, offering fragments of any size, keeping
      what was refused for the next turn, and draining in between against any writer. Whatever the
      script, wire and queue together hold exactly the surviving bytes of what was taken. */
  method Relay(faults: seq<FaultSpec>, seeds: Seeds, direction: Direction, start: nat, stream: seq<Byte>,
               script: seq<Turn>)
    returns (wire: seq<Byte>, queued: seq<Byte>, taken: nat)
    requires !HasBlackhole(faults)
    requires forall i :: 0 <= i < |script| ==> Clocked(script[i].io)
    ensures taken <= |stream|
    ensures wire + queued == Survivors(ConfigOf(faults, seeds, direction, start), 0, stream[..taken])
  {
    var handle := new TerminationHandle();
    var engine := new DirectionEngine(faults, seeds, direction, start, handle);
    assert engine.config.blackhole.None?;
    wire := [];
    var sent, rest := [], stream;
    for i := 0 to |script|
      invariant engine.Valid() && engine.config == ConfigOf(faults, seeds, direction, start) && fresh(engine) &&
                fresh(engine.handle)
      invariant sent + rest == stream && engine.history.classified == sent && engine.history.forwarded == wire
    {
      var offer := rest[..Min(script[i].length, |rest|)];
      Offered(engine.config, engine.history, offer, script[i].clock);
      var n := engine.Accept(offer, script[i].clock);
      MoveOver(sent, rest, n);
      assert offer[..n] == rest[..n];
      sent, rest := sent + rest[..n], rest[n..];
      var writes, _ := engine.PollQueue(script[i].io);
      wire := wire + Wire(writes);
    }
    taken, queued := |sent|, Contents(engine.pipe.queue);
    assert stream[..taken] == sent;
  }

  lemma {:induction false} MoveOver(a: seq<Byte>, b: seq<Byte>, n: nat)
    requires n <= |b|
    ensures (a + b[..n]) + b[n..] == a + b
  {
  }

  /** Outside a blackhole, what is accepted of an offer is classified. */
  lemma {:induction false} Offered(c: Config, t: Trace, offer: seq<Byte>, clock: Clock)
    requires Inv(c, t) && c.blackhole.None?
    ensures var (n, u) := (Spec.Accept(c, t.s, offer, clock).1, Accepted(c, t, offer, clock));
            n <= |offer| && u.classified == t.classified + offer[..n] && u.forwarded == t.forwarded
  {
    AcceptKeeps(c, t, offer, clock);
  }

  /** Accepting a sufficient prefix leaves the same history as accepting everything. */
  lemma {:induction false} VectoredHistory(c: Config, t: Trace, all: seq<Byte>, prefix: seq<Byte>, clock: Clock)
    requires prefix <= all && Spec.Accept(c, t.s, all, clock) == Spec.Accept(c, t.s, prefix, clock)
    requires Spec.Accept(c, t.s, prefix, clock).1 <= |prefix|
    ensures Accepted(c, t, all, clock) == Accepted(c, t, prefix, clock)
  {
    var n := Spec.Accept(c, t.s, prefix, clock).1;
    assert all[..n] == prefix[..n];
  }
}
