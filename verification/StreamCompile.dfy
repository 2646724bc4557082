/** What compiling a plan for one connection merges from its active faults (engine.rs, the fold that
    builds a `DirectionEngine`). */
module StreamCompile {
  import opened Common
  import opened StreamPlan
  import opened StreamEngine

  /** Fault i drew an active outcome from its own activation stream. */
  ghost predicate Drawn(seeds: Seeds, f: FaultSpec) {
    Rng(seeds.step, seeds.activation(f.id)).Bernoulli(f.probability).0
  }

  /** The earliest deadline wins, a hard reset beats a graceful close at the same moment. */
  ghost predicate Beats(d: DisconnectState, deadline: nat, hardReset: bool) {
    d.deadline < deadline || (d.deadline == deadline && (hardReset ==> d.hardReset))
  }

  ghost predicate EarliestDisconnect(faults: seq<FaultSpec>, seeds: Seeds, now: nat, d: Option<DisconnectState>) {
    && (forall f <- faults :: f.kind.Disconnect? && Drawn(seeds, f) ==>
        d.Some? && Beats(d.value, now + f.kind.after, f.kind.hardReset))
    && (d.Some? ==> exists f <- faults :: f.kind.Disconnect? && Drawn(seeds, f)
                                          && d.value == DisconnectState(now + f.kind.after, f.kind.hardReset, f.id))
  }

  /** When a blackhole of this configuration closes, if ever. */
  function CloseAt(now: nat, closeAfter: Option<nat>): Option<nat> {
    if closeAfter.Some? then Some(now + closeAfter.value) else None
  }

  /** An endless blackhole beats every finite one; among finite ones the earliest wins. */
  ghost predicate Covering(b: BlackholeState, deadline: Option<nat>) {
    b.deadline.None? || (deadline.Some? && b.deadline.value <= deadline.value)
  }

  ghost predicate StrongestBlackhole(faults: seq<FaultSpec>, seeds: Seeds, now: nat, b: Option<BlackholeState>) {
    && (forall f <- faults :: f.kind.Blackhole? && Drawn(seeds, f) ==>
        b.Some? && Covering(b.value, CloseAt(now, f.kind.closeAfter)))
    && (b.Some? ==> exists f <- faults :: f.kind.Blackhole? && Drawn(seeds, f)
                                          && b.value == BlackholeState(CloseAt(now, f.kind.closeAfter), f.id))
  }

  ghost predicate SmallestBuffer(faults: seq<FaultSpec>, seeds: Seeds, size: nat) {
    && size <= DEFAULT_BUFFER
    && (forall f <- faults :: f.kind.Latency? && Drawn(seeds, f) ==> size <= f.kind.maxBufferBytes)
    && (size == DEFAULT_BUFFER
        || exists f <- faults :: f.kind.Latency? && Drawn(seeds, f) && size == f.kind.maxBufferBytes)
  }

  ghost predicate SlowestBandwidth(faults: seq<FaultSpec>, seeds: Seeds, b: Option<(pos, pos)>) {
    && (forall f <- faults :: f.kind.Bandwidth? && Drawn(seeds, f) ==>
          b.Some? && b.value.0 <= f.kind.bytesPerSecond && b.value.1 <= f.kind.burstBytes)
    && (b.Some? ==> exists f <- faults :: f.kind.Bandwidth? && Drawn(seeds, f) && b.value.0 == f.kind.bytesPerSecond)
    && (b.Some? ==> exists f <- faults :: f.kind.Bandwidth? && Drawn(seeds, f) && b.value.1 == f.kind.burstBytes)
  }

  ghost predicate SlicerMeans(faults: seq<FaultSpec>, seeds: Seeds, slicer: bool) {
    slicer <==> exists f <- faults :: f.kind.Slice? && Drawn(seeds, f)
  }

  ghost predicate MergedOk(seen: seq<FaultSpec>, seeds: Seeds, now: nat, k: Compiling) {
    && EarliestDisconnect(seen, seeds, now, k.disconnect) && StrongestBlackhole(seen, seeds, now, k.blackhole)
    && SmallestBuffer(seen, seeds, k.maxBuffer) && SlowestBandwidth(seen, seeds, k.bandwidth)
    && SlicerMeans(seen, seeds, k.slicerActive)
  }

  lemma {:induction false} DisconnectStep(seen: seq<FaultSpec>, seeds: Seeds, now: nat, k: Compiling, f: FaultSpec)
    requires EarliestDisconnect(seen, seeds, now, k.disconnect)
    ensures EarliestDisconnect(seen + [f], seeds, now, CompileFault(seeds, now, k, f).disconnect)
  {
    var d := CompileFault(seeds, now, k, f).disconnect;
    if d.Some? && d == k.disconnect {
      var g :| g in seen && g.kind.Disconnect? && Drawn(seeds, g) &&
        d.value == DisconnectState(now + g.kind.after, g.kind.hardReset, g.id);
      assert g in seen + [f];
    } else {
      assert f in seen + [f];
    }
  }

  lemma {:induction false} BlackholeStep(seen: seq<FaultSpec>, seeds: Seeds, now: nat, k: Compiling, f: FaultSpec)
    requires StrongestBlackhole(seen, seeds, now, k.blackhole)
    ensures StrongestBlackhole(seen + [f], seeds, now, CompileFault(seeds, now, k, f).blackhole)
  {
    var b := CompileFault(seeds, now, k, f).blackhole;
    if b.Some? && b == k.blackhole {
      var g :| g in seen && g.kind.Blackhole? && Drawn(seeds, g) &&
        b.value == BlackholeState(CloseAt(now, g.kind.closeAfter), g.id);
      assert g in seen + [f];
    } else {
      assert f in seen + [f];
    }
  }

  lemma {:induction false} BufferStep(seen: seq<FaultSpec>, seeds: Seeds, now: nat, k: Compiling, f: FaultSpec)
    requires SmallestBuffer(seen, seeds, k.maxBuffer)
    ensures SmallestBuffer(seen + [f], seeds, CompileFault(seeds, now, k, f).maxBuffer)
  {
    var n := CompileFault(seeds, now, k, f).maxBuffer;
    if n != DEFAULT_BUFFER && n == k.maxBuffer {
      var g :| g in seen && g.kind.Latency? && Drawn(seeds, g) && n == g.kind.maxBufferBytes;
      assert g in seen + [f];
    } else {
      assert f in seen + [f];
    }
  }

  lemma {:induction false} BandwidthStep(seen: seq<FaultSpec>, seeds: Seeds, now: nat, k: Compiling, f: FaultSpec)
    requires SlowestBandwidth(seen, seeds, k.bandwidth)
    ensures SlowestBandwidth(seen + [f], seeds, CompileFault(seeds, now, k, f).bandwidth)
  {
    var all := seen + [f];
    assert f in all;
    if k.bandwidth.Some? {
      var g :| g in seen && g.kind.Bandwidth? && Drawn(seeds, g) && k.bandwidth.value.0 == g.kind.bytesPerSecond;
      var h :| h in seen && h.kind.Bandwidth? && Drawn(seeds, h) && k.bandwidth.value.1 == h.kind.burstBytes;
      assert g in all && h in all;
    }
  }

  lemma {:induction false} SlicerStep(seen: seq<FaultSpec>, seeds: Seeds, now: nat, k: Compiling, f: FaultSpec)
    requires SlicerMeans(seen, seeds, k.slicerActive)
    ensures SlicerMeans(seen + [f], seeds, CompileFault(seeds, now, k, f).slicerActive)
  {
    var all := seen + [f];
    assert f in all;
    if g :| g in seen && g.kind.Slice? && Drawn(seeds, g) {
      assert g in all;
    }
  }

  lemma {:induction false} MergeKeeps(seen: seq<FaultSpec>, seeds: Seeds, now: nat, k: Compiling,
                                      faults: seq<FaultSpec>)
    requires MergedOk(seen, seeds, now, k)
    ensures MergedOk(seen + faults, seeds, now, CompileFrom(seeds, now, k, faults))
    decreases |faults|
  {
    if faults == [] {
      assert seen + faults == seen;
    } else {
      var f := faults[0];
      DisconnectStep(seen, seeds, now, k, f);
      BlackholeStep(seen, seeds, now, k, f);
      BufferStep(seen, seeds, now, k, f);
      BandwidthStep(seen, seeds, now, k, f);
      SlicerStep(seen, seeds, now, k, f);
      MergeKeeps(seen + [f], seeds, now, CompileFault(seeds, now, k, f), faults[1..]);
      assert seen + [f] + faults[1..] == seen + faults;
    }
  }

  /** What a compiled connection enforces, in terms of the plan and the activation draws alone. */
  lemma {:induction false} CompiledMerges(faults: seq<FaultSpec>, seeds: Seeds, direction: Direction, now: nat)
    ensures var c := ConfigOf(faults, seeds, direction, now);
            && EarliestDisconnect(faults, seeds, now, c.disconnect) &&
               StrongestBlackhole(faults, seeds, now, c.blackhole)
            && SmallestBuffer(faults, seeds, c.maxBuffer) && SlowestBandwidth(faults, seeds, c.bandwidth)
            && SlicerMeans(faults, seeds, c.slicerActive)
  {
    MergeKeeps([], seeds, now, NOTHING_COMPILED, faults);
    assert [] + faults == faults;
  }

  /** Which faults are active is decided by their own draws. */
  lemma {:induction false} ActiveMeansDrawn(seeds: Seeds, now: nat, k: Compiling, faults: seq<FaultSpec>)
    ensures var r := CompileFrom(seeds, now, k, faults);
            && |r.active| == |k.active| + |faults| && |r.rngs| == |k.rngs| + |faults|
            && k.active <= r.active
            && (forall i :: 0 <= i < |faults| ==> (r.active[|k.active| + i] <==> Drawn(seeds, faults[i])))
    decreases |faults|
  {
    if faults != [] {
      var next := CompileFault(seeds, now, k, faults[0]);
      assert next.active == k.active + [Drawn(seeds, faults[0])];
      ActiveMeansDrawn(seeds, now, next, faults[1..]);
      var r := CompileFrom(seeds, now, k, faults);
      forall i | 0 <= i < |faults| ensures r.active[|k.active| + i] <==> Drawn(seeds, faults[i]) {
        if i > 0 {
          assert faults[i] == faults[1..][i - 1] && |k.active| + i == |next.active| + (i - 1);
        } else {
          assert r.active[|k.active|] == next.active[|k.active|];
        }
      }
    }
  }
}
