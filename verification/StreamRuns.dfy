/** Draining, compilation, and the stream engine's guarantees over every run. */
module StreamRuns {
  import opened Common
  import opened StreamPlan
  import opened StreamEngine
  import opened StreamLoss
  import opened StreamProofs

  // --- Draining ---

  function Wire(writes: seq<Write>): seq<Byte> {
    if writes == [] then [] else writes[0].bytes + Wire(writes[1..])
  }

  /** Nothing was written before its release time. */
  ghost predicate OnTime(writes: seq<Write>) {
    forall i :: 0 <= i < |writes| ==> writes[i].release <= writes[i].at
  }

  /** The clock never runs backwards inside a poll. */
  ghost predicate Clocked(io: seq<Io>) {
    forall i :: 0 <= i < |io| ==> io[i].now <= io[i].at
  }

  ghost function Flushed(t: Trace, io: seq<Io>): Trace {
    var (s, writes, outcome) := Drain(t.s, io);
    t.(s := s, forwarded := t.forwarded + Wire(writes))
  }

  /** Forwarding n bytes moves exactly the next n bytes from the queue to the wire. */
  lemma {:induction false} ForwardKeeps(c: Config, t: Trace, n: nat)
    requires Inv(c, t) && t.s.pipe.queue != [] && 0 < n <= |t.s.pipe.queue[0].bytes|
    ensures Inv(c, t.(s := Forward(t.s, n), forwarded := t.forwarded + t.s.pipe.queue[0].bytes[..n]))
  {
    var q := t.s.pipe.queue;
    var front, rest := q[0], q[1..];
    var out := front.bytes[..n];
    var q' := Forward(t.s, n).pipe.queue;
    assert front.bytes == out + front.bytes[n..];
    assert Contents(q) == out + Contents(q') by {
      if n < |front.bytes| {
        assert q'[1..] == rest;
      } else {
        assert front.bytes[n..] == [];
      }
    }
    assert (t.forwarded + out) + Contents(q') == t.forwarded + Contents(q);
    assert NoneEmpty(q') by {
      if n < |front.bytes| {
        assert q'[1..] == rest;
      }
    }
  }

  /** One round moves the next bytes from the queue to the wire, or changes nothing but the timer. A
      head is never written before its release, whatever timer an earlier head left armed. */
  lemma {:induction false} DrainOnceKeeps(c: Config, t: Trace, e: Io)
    requires Inv(c, t) && t.s.pipe.queue != [] && e.now <= e.at
    ensures var (s, p) := DrainOnce(t.s, e);
            && (p.Stopped? ==> Inv(c, t.(s := s)) && s.pipe.queue != [] && !p.outcome.Drained?)
            && (p.Sent? ==>
                  Inv(c, t.(s := s, forwarded := t.forwarded + p.write.bytes)) && p.write.release <= p.write.at)
  {
    var front := t.s.pipe.queue[0];
    TimerKeeps(t.s, e);
    var (timer, due) := if front.release > e.now then PollTimer(t.s.timer, e.now, front.release, e.at)
      else (t.s.timer, true);
    var t1 := t.(s := t.s.(timer := timer));
    assert Inv(c, t1);
    var (s, p) := DrainOnce(t.s, e);
    if p.Sent? {
      ForwardKeeps(c, t1, e.reply.n);
      assert s == Forward(t1.s, e.reply.n);
    } else {
      assert s == t1.s;
    }
  }

  lemma {:induction false} TimerKeeps(s: Engine, e: Io)
    requires SignalsOk(s) && s.pipe.queue != [] && e.now <= e.at
    ensures var release := s.pipe.queue[0].release;
            var (timer, due) := if release > e.now then PollTimer(s.timer, e.now, release, e.at) else (s.timer, true);
            SignalsOk(s.(timer := timer)) && (due ==> release <= e.at)
  {
  }

  lemma {:induction false} WireCons(sent: seq<Byte>, w: Write, writes: seq<Write>)
    ensures sent + Wire([w] + writes) == (sent + w.bytes) + Wire(writes)
    ensures OnTime(writes) && w.release <= w.at ==> OnTime([w] + writes)
  {
    assert ([w] + writes)[1..] == writes;
  }

  /** Draining keeps the whole invariant against any writer, and never writes early. */
  lemma {:induction false} DrainKeeps(c: Config, t: Trace, io: seq<Io>)
    requires Inv(c, t) && Clocked(io)
    ensures Inv(c, Flushed(t, io))
    ensures OnTime(Drain(t.s, io).1)
    ensures Drain(t.s, io).2.Drained? <==> Drain(t.s, io).0.pipe.queue == []
    decreases |io|
  {
    assert t.forwarded + [] == t.forwarded;
    if t.s.pipe.queue != [] && io != [] {
      DrainOnceKeeps(c, t, io[0]);
      var (s, p) := DrainOnce(t.s, io[0]);
      if p.Sent? {
        var u := t.(s := s, forwarded := t.forwarded + p.write.bytes);
        DrainKeeps(c, u, io[1..]);
        WireCons(t.forwarded, p.write, Drain(s, io[1..]).1);
        assert Flushed(t, io) == Flushed(u, io[1..]);
      }
    }
  }

  // --- Compilation ---

  /** Loss state is fresh, and present exactly for the active stream-loss faults. */
  ghost predicate LossCompiled(faults: seq<FaultSpec>, seeds: Seeds, active: seq<bool>, loss: seq<Option<LossState>>) {
    && |active| == |loss| == |faults|
    && (forall i :: 0 <= i < |faults| ==>
          loss[i] == if active[i] && faults[i].kind.StreamLoss?
                     then Some(LossState(Rng(seeds.step, seeds.loss(faults[i].id)), None, false)) else None)
  }

  ghost predicate HasBlackhole(faults: seq<FaultSpec>) {
    exists i :: 0 <= i < |faults| && faults[i].kind.Blackhole?
  }

  /** What has been compiled from the faults seen so far. */
  ghost predicate CompiledOk(seen: seq<FaultSpec>, seeds: Seeds, k: Compiling) {
    && |k.rngs| == |seen|
    && LossCompiled(seen, seeds, k.active, k.loss)
    && (k.blackhole.Some? ==> HasBlackhole(seen))
    && SmallestLimit(seen, k.active, k.limit)
  }

  /** `limit` is the smallest byte limit among the active limit faults, if there is one. */
  ghost predicate SmallestLimit(faults: seq<FaultSpec>, active: seq<bool>, limit: Option<Limit>)
    requires |active| == |faults|
  {
    && (forall i :: 0 <= i < |faults| && active[i] && faults[i].kind.LimitData? ==>
          limit.Some? && limit.value.remaining <= faults[i].kind.bytes)
    && (limit.Some? ==> exists i :: 0 <= i < |faults| && active[i] && faults[i].kind.LimitData?
                                    && limit.value == Limit(faults[i].kind.bytes, faults[i].id))
  }

  lemma {:induction false} BlackholeKeeps(seen: seq<FaultSpec>, seeds: Seeds, now: nat, k: Compiling, f: FaultSpec)
    requires k.blackhole.Some? ==> HasBlackhole(seen)
    ensures CompileFault(seeds, now, k, f).blackhole.Some? ==> HasBlackhole(seen + [f])
  {
    var all := seen + [f];
    assert all[|seen|] == f;
    if i :| 0 <= i < |seen| && seen[i].kind.Blackhole? {
      assert all[i].kind.Blackhole?;
    }
  }

  lemma {:induction false} LossKeeps(seen: seq<FaultSpec>, seeds: Seeds, now: nat, k: Compiling, f: FaultSpec)
    requires LossCompiled(seen, seeds, k.active, k.loss)
    ensures var k' := CompileFault(seeds, now, k, f);
            |k'.rngs| == |k.rngs| + 1 && LossCompiled(seen + [f], seeds, k'.active, k'.loss)
  {
    var k' := CompileFault(seeds, now, k, f);
    var (active, rng) := Rng(seeds.step, seeds.activation(f.id)).Bernoulli(f.probability);
    assert k'.active == k.active + [active];
    assert k'.loss == k.loss + [k'.loss[|seen|]];
  }

  lemma {:induction false} CompileFaultKeeps(seen: seq<FaultSpec>, seeds: Seeds, now: nat, k: Compiling, f: FaultSpec)
    requires CompiledOk(seen, seeds, k)
    ensures CompiledOk(seen + [f], seeds, CompileFault(seeds, now, k, f))
  {
    LossKeeps(seen, seeds, now, k, f);
    BlackholeKeeps(seen, seeds, now, k, f);
    LimitKeeps(seen, seeds, now, k, f);
  }

  lemma {:induction false} LimitKeeps(seen: seq<FaultSpec>, seeds: Seeds, now: nat, k: Compiling, f: FaultSpec)
    requires CompiledOk(seen, seeds, k)
    ensures var k' := CompileFault(seeds, now, k, f);
            SmallestLimit(seen + [f], k'.active, k'.limit)
  {
    var k' := CompileFault(seeds, now, k, f);
    var all := seen + [f];
    var n := |seen|;
    assert all[n] == f && k'.active == k.active + [k'.active[n]];
    if k'.limit.Some? {
      if k'.limit == k.limit {
        var i :| 0 <= i < n && k.active[i] && seen[i].kind.LimitData? &&
          k.limit.value == Limit(seen[i].kind.bytes, seen[i].id);
        assert all[i] == seen[i] && k'.active[i];
      } else {
        assert k'.active[n] && all[n].kind.LimitData?;
      }
    }
  }

  lemma {:induction false} CompileKeeps(seen: seq<FaultSpec>, seeds: Seeds, now: nat, k: Compiling,
                                        faults: seq<FaultSpec>)
    requires CompiledOk(seen, seeds, k)
    ensures CompiledOk(seen + faults, seeds, CompileFrom(seeds, now, k, faults))
    decreases |faults|
  {
    if faults == [] {
      assert seen + faults == seen;
    } else {
      CompileFaultKeeps(seen, seeds, now, k, faults[0]);
      CompileKeeps(seen + [faults[0]], seeds, now, CompileFault(seeds, now, k, faults[0]), faults[1..]);
      assert seen + [faults[0]] + faults[1..] == seen + faults;
    }
  }

  /** The compiled configuration: the smallest active limit, and a blackhole only if configured. */
  ghost predicate ConfigOk(c: Config) {
    && |c.active| == |c.faults|
    && (c.blackhole.Some? ==> HasBlackhole(c.faults))
    && SmallestLimit(c.faults, c.active, c.limit)
  }

  lemma {:induction false} FreshEntries(c: Config, states: seq<Option<LossState>>, n: nat)
    requires n <= |states| && LossCompiled(c.faults, c.seeds, c.active, states)
    ensures EntriesOk(c, states, 0, n)
  {
    if n > 0 {
      FreshEntries(c, states, n - 1);
    }
  }

  const NO_BASE := Base(Ledger(0, 0, 0, 0), 0, 0, 0)

  lemma {:induction false} FreshConfig(faults: seq<FaultSpec>, seeds: Seeds, direction: Direction, now: nat,
                    handle: Option<TerminationInfo>)
    ensures var c := ConfigOf(faults, seeds, direction, now);
            ConfigOk(c) && LossInv(c, FreshEngine(faults, seeds, now, handle).loss.states, 0)
  {
    CompileKeeps([], seeds, now, NOTHING_COMPILED, faults);
    assert [] + faults == faults;
    var c := ConfigOf(faults, seeds, direction, now);
    var states := FreshEngine(faults, seeds, now, handle).loss.states;
    FreshEntries(c, states, |states|);
  }

  lemma {:induction false} LimitPositive(c: Config)
    requires ConfigOk(c) && c.limit.Some?
    ensures c.limit.value.remaining > 0
  {
    var i :| 0 <= i < |c.faults| && c.active[i] && c.faults[i].kind.LimitData? &&
      c.limit.value == Limit(c.faults[i].kind.bytes, c.faults[i].id);
  }

  /** A freshly compiled engine satisfies every invariant, whatever termination it inherits. */
  lemma {:induction false} FreshKeeps(faults: seq<FaultSpec>, seeds: Seeds, direction: Direction, now: nat,
                   handle: Option<TerminationInfo>)
    ensures var c := ConfigOf(faults, seeds, direction, now);
            ConfigOk(c) && Inv(c, Trace(FreshEngine(faults, seeds, now, handle), [], [], 0, NO_BASE))
  {
    FreshConfig(faults, seeds, direction, now, handle);
    var c := ConfigOf(faults, seeds, direction, now);
    assert ChunkOf(0) == 0;
    if c.limit.Some? {
      LimitPositive(c);
    }
  }

  /** What the successor of an engine starts from: its counters, and what it leaves queued. */
  ghost function BaseAfter(t: Trace): Base {
    Base(t.s.ledger, t.s.loss.chunksEvaluated, t.s.loss.chunksDropped, t.base.abandoned + t.s.pipe.buffered)
  }

  /** A fresh engine may absorb the counters of an engine it replaces; whatever that engine still
      had queued is what the transition abandons. */
  lemma {:induction false} AbsorbKeeps(c: Config, t: Trace, d: Config, old_: Trace)
    requires Inv(c, t) && t == Trace(t.s, [], [], 0, NO_BASE) && Inv(d, old_)
    ensures Inv(c, Trace(Absorb(t.s, EvidenceOf(old_.s)), [], [], 0, BaseAfter(old_)))
  {
  }

  // --- Every run ---

  datatype Op = Send(input: seq<Byte>, clock: Clock) | Flush(io: seq<Io>)

  ghost function Exec(c: Config, t: Trace, op: Op): Trace {
    match op
    case Send(input, clock) => Accepted(c, t, input, clock)
    case Flush(io) => Flushed(t, io)
  }

  ghost function Run(c: Config, t: Trace, ops: seq<Op>): Trace
    decreases |ops|
  {
    if ops == [] then t else Run(c, Exec(c, t, ops[0]), ops[1..])
  }

  ghost predicate ClockedOps(ops: seq<Op>) {
    forall i :: 0 <= i < |ops| && ops[i].Flush? ==> Clocked(ops[i].io)
  }

  /** Every reachable state: FIFO conservation, exact loss, exact limit, bounded queue. */
  lemma {:induction false} RunKeeps(c: Config, t: Trace, ops: seq<Op>)
    requires Inv(c, t) && ClockedOps(ops)
    ensures Inv(c, Run(c, t, ops))
    decreases |ops|
  {
    if ops != [] {
      match ops[0] {
        case Send(input, clock) => AcceptKeeps(c, t, input, clock);
        case Flush(io) => DrainKeeps(c, t, io);
      }
      RunKeeps(c, Exec(c, t, ops[0]), ops[1..]);
    }
  }

  /** Bytes handed to the writer so far followed by those still queued. */
  ghost function Delivered(t: Trace): seq<Byte> {
    t.forwarded + Contents(t.s.pipe.queue)
  }

  lemma {:induction false} DeliveredSurvives(c: Config, t: Trace, ops: seq<Op>)
    requires Inv(c, t) && ClockedOps(ops)
    ensures Delivered(Run(c, t, ops)) == Survivors(c, 0, Run(c, t, ops).classified)
  {
    RunKeeps(c, t, ops);
  }

  /** Stream loss is fragmentation-independent end to end. Take any two runs of one compiled plan, cut
      into writes, refused and resubmitted, and drained in any way. If one classified a prefix of
      what the other did, then what it delivers is a prefix of what the other delivers: the filter of
      the accepted bytes by the pure per-chunk decision, with equality on equal streams. */
  lemma {:induction false} FragmentationIndependence(c: Config, t: Trace, ops1: seq<Op>, ops2: seq<Op>)
    requires Inv(c, t) && ClockedOps(ops1) && ClockedOps(ops2)
    requires Run(c, t, ops1).classified <= Run(c, t, ops2).classified
    ensures Delivered(Run(c, t, ops1)) == Survivors(c, 0, Run(c, t, ops1).classified)
    ensures Delivered(Run(c, t, ops1)) <= Delivered(Run(c, t, ops2))
    ensures Run(c, t, ops1).classified == Run(c, t, ops2).classified ==>
            Delivered(Run(c, t, ops1)) == Delivered(Run(c, t, ops2))
  {
    DeliveredSurvives(c, t, ops1);
    DeliveredSurvives(c, t, ops2);
    SurvivorsPrefix(c, Run(c, t, ops1).classified, Run(c, t, ops2).classified);
  }

  lemma {:induction false} SurvivorsPrefix(c: Config, a: seq<Byte>, b: seq<Byte>)
    requires a <= b
    ensures Survivors(c, 0, a) <= Survivors(c, 0, b)
  {
    assert b == a + b[|a|..];
    SurvivorsConcat(c, 0, a, b[|a|..]);
  }

  // --- Vectored acceptance ---

  predicate PreservingOnly(faults: seq<FaultSpec>) {
    forall i :: 0 <= i < |faults| ==> !faults[i].kind.Blackhole? && !faults[i].kind.StreamLoss?
  }

  /** The prefix length the engine would own at once. */
  function BoundedCapacity(c: Config, s: Engine): nat {
    var room := Minus(c.maxBuffer, s.pipe.buffered);
    if s.limit.Some? then Min(s.limit.value.remaining, room) else room
  }

  /** For a preserving plan, in every reachable state, only the bounded prefix of an input matters:
      accepting it alone gives the same count and the same engine as accepting everything. */
  lemma {:induction false} PrefixSuffices(c: Config, t: Trace, input: seq<Byte>, clock: Clock)
    requires Inv(c, t) && ConfigOk(c) && PreservingOnly(c.faults)
    ensures Accept(c, t.s, input, clock) == Accept(c, t.s, input[..Min(|input|, BoundedCapacity(c, t.s))], clock)
  {
    var k: nat := Min(|input|, BoundedCapacity(c, t.s));
    RefreshKeeps(c, t, clock.due);
    var s := Refresh(c, t.s, clock.due);
    StatesMatchConfig(c, s.loss, ChunkOf(s.loss.offset));
    assert !Lossy(c) && !Discarding(c, clock.discard);
    if k == |input| {
      assert input[..k] == input;
    } else if k > 0 {
      var cap: nat := Min(WithinLimit(s, |input|), Minus(c.maxBuffer, s.pipe.buffered));
      assert cap == k && input[..cap] == input[..k][..k];
      assert Min(WithinLimit(s, k), Minus(c.maxBuffer, s.pipe.buffered)) == k;
    }
  }
}
