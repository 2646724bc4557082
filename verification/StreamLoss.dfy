/** Stream-loss decisions are a pure function of the fault seeds, the rates and the absolute chunk. */
module StreamLoss {
  import opened Common
  import opened StreamPlan
  import opened StreamEngine

  ghost predicate LossActive(c: Config, i: nat) {
    i < |c.faults| && i < |c.active| && c.active[i] && c.faults[i].kind.StreamLoss?
  }

  /** The chance of losing a chunk after a lost one: the loss rate raised by the correlation, at most one. */
  function Correlated(rate: real, correlation: real): real {
    if rate + correlation <= 1.0 then rate + correlation else 1.0
  }

  /** Fault i's own decision on a chunk, and its random stream afterwards. Its fresh stream decides chunk 0
      at the loss rate; each later chunk is decided at the loss rate after a kept chunk, at the correlated
      rate after a lost one. */
  ghost function Walk(c: Config, i: nat, chunk: nat): (bool, Rng)
    requires LossActive(c, i)
  {
    var kind := c.faults[i].kind;
    if chunk == 0 then Rng(c.seeds.step, c.seeds.loss(c.faults[i].id)).Bernoulli(kind.lossRate)
    else
      var (lost, rng) := Walk(c, i, chunk - 1);
      rng.Bernoulli(if lost then Correlated(kind.lossRate, kind.correlation) else kind.lossRate)
  }

  /** A chunk is dropped when any active stream-loss fault, deciding on its own, drops it. */
  ghost predicate Drops(c: Config, chunk: nat) {
    exists i: nat :: LossActive(c, i) && Walk(c, i, chunk).0
  }

  ghost predicate Lossy(c: Config) {
    exists i: nat :: LossActive(c, i)
  }

  /** The bytes of a stream fragment starting at absolute `offset` whose chunk is not dropped. */
  ghost function Survivors(c: Config, offset: nat, data: seq<Byte>): seq<Byte>
    decreases |data|
  {
    if data == [] then []
    else (if Drops(c, ChunkOf(offset)) then [] else [data[0]]) + Survivors(c, offset + 1, data[1..])
  }

  lemma {:induction false} SurvivorsConcat(c: Config, offset: nat, a: seq<Byte>, b: seq<Byte>)
    ensures Survivors(c, offset, a + b) == Survivors(c, offset, a) + Survivors(c, offset + |a|, b)
    decreases |a|
  {
    if a == [] {
      assert a + b == b;
    } else {
      assert (a + b)[1..] == a[1..] + b;
      SurvivorsConcat(c, offset + 1, a[1..], b);
    }
  }

  lemma {:induction false} ChunkBounds(offset: nat)
    ensures ChunkOf(offset) * GRAIN <= offset < (ChunkOf(offset) + 1) * GRAIN
  {
  }

  lemma {:induction false} ChunkUnique(offset: nat, chunk: nat)
    requires chunk * GRAIN <= offset < (chunk + 1) * GRAIN
    ensures ChunkOf(offset) == chunk
  {
  }

  /** Inside one chunk, everything survives or nothing does. */
  lemma {:induction false} SurvivorsWithinChunk(c: Config, offset: nat, data: seq<Byte>, chunk: nat)
    requires chunk * GRAIN <= offset && offset + |data| <= (chunk + 1) * GRAIN
    ensures Survivors(c, offset, data) == if Drops(c, chunk) then [] else data
    decreases |data|
  {
    if data != [] {
      ChunkUnique(offset, chunk);
      SurvivorsWithinChunk(c, offset + 1, data[1..], chunk);
    }
  }

  lemma {:induction false} SurvivorsLossless(c: Config, offset: nat, data: seq<Byte>)
    requires !Lossy(c)
    ensures Survivors(c, offset, data) == data
    decreases |data|
  {
    if data != [] {
      SurvivorsLossless(c, offset + 1, data[1..]);
    }
  }

  // --- What the rates mean ---

  /** A fault that can neither lose nor correlate keeps every chunk; one that always loses keeps none. */
  lemma {:induction false} CertainWalk(c: Config, i: nat, chunk: nat)
    requires LossActive(c, i)
    ensures c.faults[i].kind.lossRate <= 0.0 ==> !Walk(c, i, chunk).0
    ensures c.faults[i].kind.lossRate >= 1.0 && c.faults[i].kind.correlation >= 0.0 ==> Walk(c, i, chunk).0
  {
    if chunk > 0 {
      CertainWalk(c, i, chunk - 1);
    }
  }

  /** Full correlation makes a loss last: once a chunk is lost, so is every later one. */
  lemma {:induction false} FullCorrelationLasts(c: Config, i: nat, chunk: nat, n: nat)
    requires LossActive(c, i) && Walk(c, i, chunk).0
    requires c.faults[i].kind.lossRate + c.faults[i].kind.correlation >= 1.0
    ensures Walk(c, i, chunk + n).0
    decreases n
  {
    if n > 0 {
      FullCorrelationLasts(c, i, chunk, n - 1);
    }
  }

  /** With loss rates of zero only, every byte survives, whatever the correlations. */
  lemma {:induction false} ZeroRatesKeepAll(c: Config, offset: nat, data: seq<Byte>)
    requires forall i: nat :: LossActive(c, i) ==> c.faults[i].kind.lossRate <= 0.0
    ensures Survivors(c, offset, data) == data
    decreases |data|
  {
    if data != [] {
      forall i: nat | LossActive(c, i) ensures !Walk(c, i, ChunkOf(offset)).0 {
        CertainWalk(c, i, ChunkOf(offset));
      }
      ZeroRatesKeepAll(c, offset + 1, data[1..]);
    }
  }

  /** With an active fault of loss rate one, no byte survives. */
  lemma {:induction false} FullRateDropsAll(c: Config, i: nat, offset: nat, data: seq<Byte>)
    requires LossActive(c, i) && c.faults[i].kind.lossRate >= 1.0 && c.faults[i].kind.correlation >= 0.0
    ensures Survivors(c, offset, data) == []
    decreases |data|
  {
    if data != [] {
      CertainWalk(c, i, ChunkOf(offset));
      FullRateDropsAll(c, i, offset + 1, data[1..]);
    }
  }

  // --- The per-connection state agrees with the pure decision ---

  /** Fault i's state: nothing drawn yet, or exactly the draws of chunks 0..k with their outcome. */
  ghost predicate LossAt(c: Config, i: nat, st: LossState, bound: nat)
    requires LossActive(c, i)
  {
    match st.decided
    case None => st.rng == Rng(c.seeds.step, c.seeds.loss(c.faults[i].id)) && !st.prevDropped
    case Some(kd) => kd.0 <= bound && (kd.1, st.rng) == Walk(c, i, kd.0) && st.prevDropped == kd.1
  }

  /** Entry i is present exactly for an active stream-loss fault, and then in order. */
  ghost predicate EntryOk(c: Config, i: nat, st: Option<LossState>, bound: nat) {
    (st.Some? <==> LossActive(c, i)) && (st.Some? ==> LossAt(c, i, st.value, bound))
  }

  ghost predicate EntriesOk(c: Config, states: seq<Option<LossState>>, bound: nat, n: nat)
    requires n <= |states|
  {
    n == 0 || (EntriesOk(c, states, bound, n - 1) && EntryOk(c, n - 1, states[n - 1], bound))
  }

  ghost predicate LossInv(c: Config, states: seq<Option<LossState>>, bound: nat) {
    |states| == |c.faults| && EntriesOk(c, states, bound, |states|)
  }

  lemma {:induction false} EntryAt(c: Config, states: seq<Option<LossState>>, bound: nat, n: nat, i: nat)
    requires i < n <= |states| && EntriesOk(c, states, bound, n)
    ensures EntryOk(c, i, states[i], bound)
  {
    if i < n - 1 {
      EntryAt(c, states, bound, n - 1, i);
    }
  }

  lemma {:induction false} EntriesUpdate(c: Config, states: seq<Option<LossState>>, bound: nat, n: nat, i: nat,
                                         st: Option<LossState>)
    requires n <= |states| && i < |states| && EntriesOk(c, states, bound, n) && EntryOk(c, i, st, bound)
    ensures EntriesOk(c, states[i := st], bound, n)
  {
    if n > 0 {
      EntriesUpdate(c, states, bound, n - 1, i, st);
    }
  }

  lemma {:induction false} EntriesGrow(c: Config, states: seq<Option<LossState>>, a: nat, b: nat, n: nat)
    requires n <= |states| && EntriesOk(c, states, a, n) && a <= b
    ensures EntriesOk(c, states, b, n)
  {
    if n > 0 {
      EntriesGrow(c, states, a, b, n - 1);
    }
  }

  /** Drawing on from chunk k walks to chunk k + n. */
  lemma {:induction false} DrawsWalk(c: Config, i: nat, k: nat, n: nat)
    requires LossActive(c, i)
    ensures Draws(c.faults[i].kind, Walk(c, i, k).1, Walk(c, i, k).0, n) == Walk(c, i, k + n)
    decreases n
  {
    if n > 0 {
      assert Draw(c.faults[i].kind, Walk(c, i, k).1, Walk(c, i, k).0) == Walk(c, i, k + 1);
      DrawsWalk(c, i, k + 1, n - 1);
    }
  }

  lemma {:induction false} DecideOneCorrect(c: Config, i: nat, st: LossState, chunk: nat)
    requires LossActive(c, i) && LossAt(c, i, st, chunk)
    ensures var (t, drop) := DecideOne(c.faults[i].kind, st, chunk);
            LossAt(c, i, t, chunk) && drop == Walk(c, i, chunk).0
  {
    if st.decided.None? {
      assert Draw(c.faults[i].kind, st.rng, false) == Walk(c, i, 0);
      DrawsWalk(c, i, 0, chunk);
    } else if st.decided.value.0 < chunk {
      DrawsWalk(c, i, st.decided.value.0, chunk - st.decided.value.0);
    }
  }

  lemma {:induction false} DecideFromCorrect(c: Config, i: nat, states: seq<Option<LossState>>, chunk: nat,
                                             dropAny: bool)
    requires i <= |c.faults| && LossInv(c, states, chunk)
    ensures var (after, drop) := DecideFrom(c, i, states, chunk, dropAny);
            && LossInv(c, after, chunk)
            && (drop <==> dropAny || exists j: nat :: i <= j && LossActive(c, j) && Walk(c, j, chunk).0)
    decreases |c.faults| - i
  {
    if i < |c.faults| {
      EntryAt(c, states, chunk, |states|, i);
      if states[i].None? {
        DecideFromCorrect(c, i + 1, states, chunk, dropAny);
      } else {
        DecideOneCorrect(c, i, states[i].value, chunk);
        var (st, drop) := DecideOne(c.faults[i].kind, states[i].value, chunk);
        EntriesUpdate(c, states, chunk, |states|, i, Some(st));
        DecideFromCorrect(c, i + 1, states[i := Some(st)], chunk, dropAny || drop);
      }
    }
  }

  /** Whatever was decided before, and however the caller fragmented its writes, deciding a chunk
      gives the union of the faults' independent pure decisions. */
  lemma {:induction false} DecideCorrect(c: Config, l: Loss, chunk: nat)
    requires LossInv(c, l.states, chunk)
    ensures Decide(c, l, chunk).1 <==> Drops(c, chunk)
    ensures LossInv(c, Decide(c, l, chunk).0.states, chunk)
  {
    DecideFromCorrect(c, 0, l.states, chunk, false);
  }

  /** Number of dropped chunks among 0..n. */
  ghost function DroppedChunks(c: Config, n: nat): nat {
    if n == 0 then 0 else DroppedChunks(c, n - 1) + if Drops(c, n - 1) then 1 else 0
  }

  /** Chunks 0..evaluated are exactly those touched so far (the last one possibly only decided), and
      each is counted once, with its outcome, on top of the counters absorbed at the start. */
  ghost predicate ChunkCounts(c: Config, l: Loss, evaluated0: nat, dropped0: nat) {
    && l.offset <= l.evaluated * GRAIN
    && l.evaluated <= ChunkOf(l.offset) + 1
    && l.chunksEvaluated == evaluated0 + l.evaluated
    && l.chunksDropped == dropped0 + DroppedChunks(c, l.evaluated)
  }

  /** The loss machinery between calls. */
  ghost predicate LossOk(c: Config, l: Loss, evaluated0: nat, dropped0: nat) {
    LossInv(c, l.states, ChunkOf(l.offset)) && ChunkCounts(c, l, evaluated0, dropped0)
  }

  /** Deciding the current chunk says whether a run inside it survives, and counts the chunk. */
  lemma {:induction false} DecideEffect(c: Config, l: Loss, run: seq<Byte>, evaluated0: nat, dropped0: nat)
    requires LossOk(c, l, evaluated0, dropped0)
    requires l.offset + |run| <= (ChunkOf(l.offset) + 1) * GRAIN
    ensures var (m, drop) := Decide(c, l, ChunkOf(l.offset));
            && m.offset == l.offset && m.evaluated == ChunkOf(l.offset) + 1
            && LossOk(c, m, evaluated0, dropped0)
            && Survivors(c, l.offset, run) == if drop then [] else run
  {
    ChunkBounds(l.offset);
    DecideCorrect(c, l, ChunkOf(l.offset));
    SurvivorsWithinChunk(c, l.offset, run, ChunkOf(l.offset));
  }

  /** Moving the offset within the chunk just decided keeps the loss machinery in order. */
  lemma {:induction false} AdvanceOffset(c: Config, l: Loss, n: nat, evaluated0: nat, dropped0: nat)
    requires LossOk(c, l, evaluated0, dropped0) && l.evaluated == ChunkOf(l.offset) + 1
    requires l.offset + n <= (ChunkOf(l.offset) + 1) * GRAIN
    ensures LossOk(c, l.(offset := l.offset + n), evaluated0, dropped0)
  {
    ChunkMonotone(l.offset, l.offset + n);
    EntriesGrow(c, l.states, ChunkOf(l.offset), ChunkOf(l.offset + n), |l.states|);
  }

  /** Deciding the current chunk and moving past a run inside it. */
  lemma {:induction false} DecideAndAdvance(c: Config, l: Loss, run: seq<Byte>, evaluated0: nat, dropped0: nat)
    requires LossOk(c, l, evaluated0, dropped0)
    requires l.offset + |run| <= (ChunkOf(l.offset) + 1) * GRAIN
    ensures var (m, drop) := Decide(c, l, ChunkOf(l.offset));
            && LossOk(c, m.(offset := l.offset + |run|), evaluated0, dropped0)
            && Survivors(c, l.offset, run) == if drop then [] else run
  {
    DecideEffect(c, l, run, evaluated0, dropped0);
    AdvanceOffset(c, Decide(c, l, ChunkOf(l.offset)).0, |run|, evaluated0, dropped0);
  }

  lemma {:induction false} ChunkMonotone(a: nat, b: nat)
    requires a <= b
    ensures ChunkOf(a) <= ChunkOf(b)
  {
  }
}
