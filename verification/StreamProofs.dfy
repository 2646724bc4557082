/** Invariants of the stream engine over every run: FIFO conservation, fragmentation-independent
    loss, the exact byte limit, bounded buffering, and no early release. */
module StreamProofs {
  import opened Common
  import opened StreamEngine
  import opened StreamLoss

  // --- Queue contents ---

  function Contents(q: seq<Queued>): seq<Byte> {
    if q == [] then [] else q[0].bytes + Contents(q[1..])
  }

  lemma {:induction false} ContentsAppend(q: seq<Queued>, x: Queued)
    ensures Contents(q + [x]) == Contents(q) + x.bytes
    ensures NoneEmpty(q) && x.bytes != [] ==> NoneEmpty(q + [x])
  {
    if q == [] {
      assert q + [x] == [x];
      assert [x][1..] == [];
    } else {
      assert (q + [x])[1..] == q[1..] + [x];
      ContentsAppend(q[1..], x);
    }
  }

  /** `buffered` counts the queued bytes exactly, segments are non-empty, the bound holds. */
  ghost predicate PipeOk(c: Config, p: Pipe) {
    && p.buffered == |Contents(p.queue)| <= c.maxBuffer
    && p.buffered <= p.highWater
    && NoneEmpty(p.queue)
  }

  ghost predicate NoneEmpty(q: seq<Queued>) {
    q == [] || (q[0].bytes != [] && NoneEmpty(q[1..]))
  }

  /** `q` is `p` with `data` queued behind it. */
  ghost predicate Extends(c: Config, p: Pipe, q: Pipe, data: seq<Byte>) {
    PipeOk(c, q) && Contents(q.queue) == Contents(p.queue) + data
  }

  lemma {:induction false} PushSegmentEffect(c: Config, p: Pipe, bytes: seq<Byte>, now: nat)
    requires PipeOk(c, p) && bytes != [] && p.buffered + |bytes| <= c.maxBuffer
    ensures Extends(c, p, PushSegment(c, p, bytes, now), bytes)
  {
    var q := PushSegment(c, p, bytes, now);
    ContentsAppend(p.queue, q.queue[|p.queue|]);
  }

  /** A run that fits is queued whole and in order. */
  lemma {:induction false} PushRunEffect(c: Config, p: Pipe, data: seq<Byte>, now: nat)
    requires PipeOk(c, p) && p.buffered + |data| <= c.maxBuffer
    ensures PushRun(c, p, data, now).1 == |data|
    ensures Extends(c, p, PushRun(c, p, data, now).0, data)
    decreases |data|
  {
    if data != [] {
      var (k, rngs) := NextSize(c, p.rngs, |data|);
      var p1 := p.(rngs := rngs);
      PushSegmentEffect(c, p1, data[..k], now);
      var p2 := PushSegment(c, p1, data[..k], now);
      PushRunEffect(c, p2, data[k..], now);
      ExtendsThen(c, p, p2, PushRun(c, p2, data[k..], now).0, data, k);
    }
  }

  lemma {:induction false} ExtendsThen(c: Config, p: Pipe, p2: Pipe, q: Pipe, data: seq<Byte>, k: nat)
    requires k <= |data| && Extends(c, p, p2, data[..k]) && Extends(c, p2, q, data[k..])
    ensures Extends(c, p, q, data)
  {
    assert data == data[..k] + data[k..];
    assert (Contents(p.queue) + data[..k]) + data[k..] == Contents(p.queue) + (data[..k] + data[k..]);
  }

  // --- Classification ---

  /** The counters absorbed from earlier generations, with the bytes those generations gave up on
      when their last drain failed. */
  datatype Base = Base(ledger: Ledger, evaluated: nat, dropped: nat, abandoned: nat)

  /** From (p, l), the first n bytes of `data` were classified into (q, m); `d` of them dropped. */
  ghost predicate Took(c: Config, p: Pipe, l: Loss, data: seq<Byte>, q: Pipe, m: Loss, n: nat, d: nat, b: Base) {
    && n <= |data|
    && Extends(c, p, q, Survivors(c, l.offset, data[..n]))
    && |Survivors(c, l.offset, data[..n])| + d == n
    && LossOk(c, m, b.evaluated, b.dropped) && m.offset == l.offset + n
  }

  ghost predicate RoundOk(c: Config, p: Pipe, l: Loss, data: seq<Byte>, r: Round, b: Base) {
    Took(c, p, l, data, r.pipe, r.loss, r.taken, r.discarded, b) && (r.stop ==> r.pipe.buffered == c.maxBuffer)
  }

  lemma {:induction false} DropRound(c: Config, p: Pipe, l: Loss, data: seq<Byte>, run: nat, b: Base)
    requires PipeOk(c, p) && LossOk(c, l, b.evaluated, b.dropped) && run <= |data|
    requires l.offset + run <= (ChunkOf(l.offset) + 1) * GRAIN
    requires Decide(c, l, ChunkOf(l.offset)).1
    ensures var m := Decide(c, l, ChunkOf(l.offset)).0;
            var q := p.(work := p.work.(segments := p.work.segments + 1));
            RoundOk(c, p, l, data, Round(q, m.(offset := l.offset + run), run, run, false), b)
  {
    DecideAndAdvance(c, l, data[..run], b.evaluated, b.dropped);
  }

  lemma {:induction false} KeepRound(c: Config, p: Pipe, l: Loss, data: seq<Byte>, room: nat, now: nat, b: Base)
    requires PipeOk(c, p) && LossOk(c, l, b.evaluated, b.dropped) && room <= |data| && p.buffered + room <= c.maxBuffer
    requires l.offset + room <= (ChunkOf(l.offset) + 1) * GRAIN
    requires !Decide(c, l, ChunkOf(l.offset)).1
    ensures var m := Decide(c, l, ChunkOf(l.offset)).0;
            var (q, owned) := PushRun(c, p, data[..room], now);
            owned == room && RoundOk(c, p, l, data, Round(q, m.(offset := l.offset + room), room, 0, false), b)
  {
    DecideAndAdvance(c, l, data[..room], b.evaluated, b.dropped);
    PushRunEffect(c, p, data[..room], now);
  }

  lemma {:induction false} FullRound(c: Config, p: Pipe, l: Loss, data: seq<Byte>, b: Base)
    requires PipeOk(c, p) && LossOk(c, l, b.evaluated, b.dropped) && p.buffered == c.maxBuffer
    ensures RoundOk(c, p, l, data, Round(p, Decide(c, l, ChunkOf(l.offset)).0, 0, 0, true), b)
  {
    ChunkBounds(l.offset);
    assert data[..0] == [];
    DecideEffect(c, l, [], b.evaluated, b.dropped);
  }

  lemma {:induction false} DroppedEffect(c: Config, p: Pipe, l: Loss, data: seq<Byte>, now: nat, b: Base)
    requires PipeOk(c, p) && LossOk(c, l, b.evaluated, b.dropped) && data != [] && Decide(c, l, ChunkOf(l.offset)).1
    ensures RoundOk(c, p, l, data, ClassifyRound(c, p, l, data, now), b)
  {
    ChunkBounds(l.offset);
    var run: nat := Min((ChunkOf(l.offset) + 1) * GRAIN - l.offset, |data|);
    DropRound(c, p, l, data, run, b);
    var q := p.(work := p.work.(segments := p.work.segments + 1));
    assert ClassifyRound(c, p, l, data, now)
        == Round(q, Decide(c, l, ChunkOf(l.offset)).0.(offset := l.offset + run), run, run, false);
  }

  lemma {:induction false} KeptEffect(c: Config, p: Pipe, l: Loss, data: seq<Byte>, now: nat, b: Base)
    requires PipeOk(c, p) && LossOk(c, l, b.evaluated, b.dropped) && data != [] && !Decide(c, l, ChunkOf(l.offset)).1
    ensures RoundOk(c, p, l, data, ClassifyRound(c, p, l, data, now), b)
  {
    ChunkBounds(l.offset);
    var run: nat := Min((ChunkOf(l.offset) + 1) * GRAIN - l.offset, |data|);
    var room: nat := Min(run, Minus(c.maxBuffer, p.buffered));
    var m := Decide(c, l, ChunkOf(l.offset)).0;
    var r := ClassifyRound(c, p, l, data, now);
    if room == 0 {
      FullRound(c, p, l, data, b);
      assert r == Round(p, m, 0, 0, true);
    } else {
      KeepRound(c, p, l, data, room, now, b);
      assert r == Round(PushRun(c, p, data[..room], now).0, m.(offset := l.offset + room), room, 0, false);
    }
  }

  lemma {:induction false} RoundEffect(c: Config, p: Pipe, l: Loss, data: seq<Byte>, now: nat, b: Base)
    requires PipeOk(c, p) && LossOk(c, l, b.evaluated, b.dropped) && data != []
    ensures RoundOk(c, p, l, data, ClassifyRound(c, p, l, data, now), b)
  {
    if Decide(c, l, ChunkOf(l.offset)).1 {
      DroppedEffect(c, p, l, data, now, b);
    } else {
      KeptEffect(c, p, l, data, now, b);
    }
  }

  lemma {:induction false} TookThen(c: Config, p: Pipe, l: Loss, data: seq<Byte>, q: Pipe, m: Loss, n: nat, d: nat,
                 q': Pipe, m': Loss, n': nat, d': nat, b: Base)
    requires Took(c, p, l, data, q, m, n, d, b)
    requires Took(c, q, m, data[n..], q', m', n', d', b)
    ensures Took(c, p, l, data, q', m', n + n', d + d', b)
  {
    assert data[..n + n'] == data[..n] + data[n..][..n'];
    SurvivorsConcat(c, l.offset, data[..n], data[n..][..n']);
  }

  /** The classified prefix is exact, and shorter than the input only when the queue is full. */
  ghost predicate ClassifiedOk(c: Config, p: Pipe, l: Loss, data: seq<Byte>, k: Classified, b: Base) {
    Took(c, p, l, data, k.pipe, k.loss, k.taken, k.discarded, b) &&
      (k.taken < |data| ==> k.pipe.buffered == c.maxBuffer)
  }

  lemma {:induction false} RoundThen(c: Config, p: Pipe, l: Loss, data: seq<Byte>, r: Round, k: Classified, b: Base)
    requires RoundOk(c, p, l, data, r, b) && ClassifiedOk(c, r.pipe, r.loss, data[r.taken..], k, b)
    ensures ClassifiedOk(c, p, l, data, Classified(k.pipe, k.loss, r.taken + k.taken, r.discarded + k.discarded), b)
  {
    TookThen(c, p, l, data, r.pipe, r.loss, r.taken, r.discarded, k.pipe, k.loss, k.taken, k.discarded, b);
  }

  lemma {:induction false} ClassifyEffect(c: Config, p: Pipe, l: Loss, data: seq<Byte>, now: nat, b: Base)
    requires PipeOk(c, p) && LossOk(c, l, b.evaluated, b.dropped)
    ensures ClassifiedOk(c, p, l, data, Classify(c, p, l, data, now), b)
    decreases |data|
  {
    if data == [] {
      assert data[..0] == [];
    } else {
      RoundEffect(c, p, l, data, now, b);
      var r := ClassifyRound(c, p, l, data, now);
      if r.stop {
        assert Classify(c, p, l, data, now) == Classified(r.pipe, r.loss, r.taken, r.discarded);
      } else {
        ClassifyEffect(c, r.pipe, r.loss, data[r.taken..], now, b);
        var k := Classify(c, r.pipe, r.loss, data[r.taken..], now);
        RoundThen(c, p, l, data, r, k, b);
        assert Classify(c, p, l, data, now) == Classified(k.pipe, k.loss, r.taken + k.taken, r.discarded + k.discarded);
      }
    }
  }

  // --- The engine with its history ---

  /** An engine together with what has happened to it: the accepted bytes outside any blackhole, the
      bytes handed to the inner writer, how many bytes were accepted in all, and the counters
      absorbed from earlier generations. */
  datatype Trace = Trace(s: Engine, classified: seq<Byte>, forwarded: seq<Byte>, taken: nat, base: Base)

  /** Order and loss: forwarded bytes followed by queued bytes are the survivors of what was accepted. */
  ghost predicate StreamOk(c: Config, t: Trace) {
    && PipeOk(c, t.s.pipe)
    && LossOk(c, t.s.loss, t.base.evaluated, t.base.dropped)
    && (Lossy(c) ==> t.s.loss.offset == |t.classified|)
    && t.forwarded + Contents(t.s.pipe.queue) == Survivors(c, 0, t.classified)
  }

  /** Conservation: every accepted byte is forwarded, discarded or buffered (or was abandoned before
      this generation), and lost bytes are those that did not survive. */
  ghost predicate LedgerOk(c: Config, t: Trace) {
    var l, b := t.s.ledger, t.base.ledger;
    && b.accepted == b.forwarded + b.discarded + t.base.abandoned
    && l.accepted == b.accepted + t.taken
    && l.forwarded == b.forwarded + |t.forwarded|
    && l.accepted == l.forwarded + l.discarded + t.s.pipe.buffered + t.base.abandoned
    && l.lossDiscarded + |Survivors(c, 0, t.classified)| == b.lossDiscarded + |t.classified|
  }

  /** The byte limit: what remains plus what was accepted is the configured limit, and a termination
      exists as soon as nothing remains. */
  ghost predicate LimitOk(c: Config, s: Engine, taken: nat) {
    match c.limit
    case None => s.limit.None?
    case Some(l) =>
      && s.limit.Some? && s.limit.value.id == l.id
      && s.limit.value.remaining + taken == l.remaining
      && (s.limit.value.remaining == 0 ==> s.termination.Some?)
  }

  /** The durable slot and the engine agree, and a cached timer fires at the deadline it is keyed by. */
  ghost predicate SignalsOk(s: Engine) {
    s.handle == s.termination && (s.timer.Armed? ==> s.timer.fire == s.timer.deadline)
  }

  ghost predicate Inv(c: Config, t: Trace) {
    StreamOk(c, t) && LedgerOk(c, t) && LimitOk(c, t.s, t.taken) && SignalsOk(t.s)
  }

  // --- Acceptance ---

  /** Settling n accepted bytes keeps ledger and limit exact. */
  lemma {:induction false} SettleKeeps(c: Config, t: Trace, s: Engine, n: nat, d: nat, lost: nat, u: Trace)
    requires Inv(c, t)
    requires s.ledger == t.s.ledger && s.limit == t.s.limit && s.termination == t.s.termination
    requires s.handle == t.s.handle && s.timer == t.s.timer
    requires s.pipe.buffered + d == t.s.pipe.buffered + n
    requires t.s.limit.Some? ==> n <= t.s.limit.value.remaining
    requires u == t.(s := Settle(c, s, n, d, lost), taken := t.taken + n, classified := u.classified)
    requires |Survivors(c, 0, u.classified)| + lost + |t.classified| == |Survivors(c, 0, t.classified)| + |u.classified|
    ensures LedgerOk(c, u) && LimitOk(c, u.s, u.taken) && SignalsOk(u.s)
    ensures u.s.pipe == s.pipe && u.s.loss == s.loss
  {
  }

  lemma {:induction false} DiscardingKeeps(c: Config, t: Trace, n: nat)
    requires Inv(c, t)
    ensures var (s, m) := AcceptDiscarding(c, t.s, n);
            m == WithinLimit(t.s, n) && Inv(c, t.(s := s, taken := t.taken + m))
  {
    var cap := WithinLimit(t.s, n);
    var pipe := t.s.pipe.(work := t.s.pipe.work.(segments := t.s.pipe.work.segments + 1));
    var s := AcceptDiscarding(c, t.s, n).0;
    SettleKeeps(c, t, t.s.(pipe := pipe), cap, cap, 0, t.(s := s, taken := t.taken + cap));
  }

  /** The engine after classifying a prefix of `data` extends the surviving stream by exactly that. */
  lemma {:induction false} TookStream(c: Config, t: Trace, data: seq<Byte>, q: Pipe, m: Loss, n: nat, d: nat)
    requires StreamOk(c, t) && Lossy(c)
    requires Took(c, t.s.pipe, t.s.loss, data, q, m, n, d, t.base)
    ensures var u := t.classified + data[..n];
            && t.forwarded + Contents(q.queue) == Survivors(c, 0, u)
            && |Survivors(c, 0, u)| + d == |Survivors(c, 0, t.classified)| + n
  {
    var kept := Survivors(c, |t.classified|, data[..n]);
    SurvivorsConcat(c, 0, t.classified, data[..n]);
    assert t.forwarded + (Contents(t.s.pipe.queue) + kept) == (t.forwarded + Contents(t.s.pipe.queue)) + kept;
  }

  lemma {:induction false} LossyKeeps(c: Config, t: Trace, input: seq<Byte>, now: nat)
    requires Inv(c, t) && Lossy(c)
    ensures var (s, n) := AcceptLossy(c, t.s, input, now);
            && n <= |input| && Inv(c, t.(s := s, taken := t.taken + n, classified := t.classified + input[..n]))
            && (n < WithinLimit(t.s, |input|) ==> s.pipe.buffered == c.maxBuffer)
  {
    var data := input[..WithinLimit(t.s, |input|)];
    ClassifyEffect(c, t.s.pipe, t.s.loss, data, now, t.base);
    var k := Classify(c, t.s.pipe, t.s.loss, data, now);
    assert data[..k.taken] == input[..k.taken];
    if k.taken == 0 {
      NothingTaken(c, t, data, k);
      assert t.classified + input[..0] == t.classified;
    } else {
      PrefixSettles(c, t, data, k);
    }
  }

  /** A chunk may be decided although none of its bytes can be owned yet. */
  lemma {:induction false} NothingTaken(c: Config, t: Trace, data: seq<Byte>, k: Classified)
    requires Inv(c, t) && Took(c, t.s.pipe, t.s.loss, data, k.pipe, k.loss, 0, k.discarded, t.base)
    ensures Inv(c, t.(s := t.s.(pipe := k.pipe, loss := k.loss)))
  {
    assert data[..0] == [];
    assert Contents(t.s.pipe.queue) + [] == Contents(t.s.pipe.queue);
  }

  /** Settling a classified prefix. */
  lemma {:induction false} PrefixSettles(c: Config, t: Trace, data: seq<Byte>, k: Classified)
    requires Inv(c, t) && Lossy(c) && Took(c, t.s.pipe, t.s.loss, data, k.pipe, k.loss, k.taken, k.discarded, t.base)
    requires t.s.limit.Some? ==> k.taken <= t.s.limit.value.remaining
    ensures Inv(c, t.(s := Settle(c, t.s.(pipe := k.pipe, loss := k.loss), k.taken, k.discarded, k.discarded),
                      taken := t.taken + k.taken, classified := t.classified + data[..k.taken]))
  {
    TookStream(c, t, data, k.pipe, k.loss, k.taken, k.discarded);
    var s := t.s.(pipe := k.pipe, loss := k.loss);
    var u := t.(s := Settle(c, s, k.taken, k.discarded, k.discarded), taken := t.taken + k.taken,
                classified := t.classified + data[..k.taken]);
    SettleKeeps(c, t, s, k.taken, k.discarded, k.discarded, u);
    assert StreamOk(c, u);
  }

  /** Without stream loss, queueing `data` extends the surviving stream by exactly `data`. */
  lemma {:induction false} ExtendsStream(c: Config, t: Trace, data: seq<Byte>, q: Pipe)
    requires StreamOk(c, t) && !Lossy(c) && Extends(c, t.s.pipe, q, data)
    ensures var u := t.classified + data;
            && t.forwarded + Contents(q.queue) == Survivors(c, 0, u)
            && |Survivors(c, 0, u)| + |t.classified| == |Survivors(c, 0, t.classified)| + |u|
  {
    SurvivorsLossless(c, 0, t.classified);
    SurvivorsLossless(c, 0, t.classified + data);
    assert t.forwarded + (Contents(t.s.pipe.queue) + data) == (t.forwarded + Contents(t.s.pipe.queue)) + data;
  }

  lemma {:induction false} PreservingKeeps(c: Config, t: Trace, input: seq<Byte>, now: nat)
    requires Inv(c, t) && !Lossy(c)
    ensures var (s, n) := AcceptPreserving(c, t.s, input, now);
            && n <= |input| && Inv(c, t.(s := s, taken := t.taken + n, classified := t.classified + input[..n]))
            && (n < WithinLimit(t.s, |input|) ==> s.pipe.buffered == c.maxBuffer)
  {
    var cap: nat := Min(WithinLimit(t.s, |input|), Minus(c.maxBuffer, t.s.pipe.buffered));
    if cap == 0 {
      assert t.classified + input[..0] == t.classified;
    } else {
      var data := input[..cap];
      PushRunEffect(c, t.s.pipe, data, now);
      var q := PushRun(c, t.s.pipe, data, now).0;
      WholeSettles(c, t, data, q);
      assert AcceptPreserving(c, t.s, input, now) == (Settle(c, t.s.(pipe := q), cap, 0, 0), cap);
    }
  }

  /** Settling a run that was queued whole. */
  lemma {:induction false} WholeSettles(c: Config, t: Trace, data: seq<Byte>, q: Pipe)
    requires Inv(c, t) && !Lossy(c) && Extends(c, t.s.pipe, q, data) &&
             (t.s.limit.Some? ==> |data| <= t.s.limit.value.remaining)
    ensures Inv(c, t.(s := Settle(c, t.s.(pipe := q), |data|, 0, 0), taken := t.taken + |data|,
                      classified := t.classified + data))
  {
    ExtendsStream(c, t, data, q);
    var s := t.s.(pipe := q);
    var u := t.(s := Settle(c, s, |data|, 0, 0), taken := t.taken + |data|, classified := t.classified + data);
    SettleKeeps(c, t, s, |data|, 0, 0, u);
    assert StreamOk(c, u);
  }

  lemma {:induction false} RefreshKeeps(c: Config, t: Trace, now: nat)
    requires Inv(c, t)
    ensures var s := Refresh(c, t.s, now);
            s == t.s.(termination := s.termination, handle := s.handle) && Inv(c, t.(s := s))
  {
  }

  lemma {:induction false} StatesMatchConfig(c: Config, l: Loss, bound: nat)
    requires LossInv(c, l.states, bound)
    ensures HasLoss(l) <==> Lossy(c)
  {
    if i: nat :| LossActive(c, i) {
      EntryAt(c, l.states, bound, |l.states|, i);
    }
    if i :| 0 <= i < |l.states| && l.states[i].Some? {
      EntryAt(c, l.states, bound, |l.states|, i);
    }
  }

  /** What one call to `Accept` does to the history. */
  ghost function Accepted(c: Config, t: Trace, input: seq<Byte>, clock: Clock): Trace {
    var (s, n) := Accept(c, t.s, input, clock);
    t.(s := s, taken := t.taken + n,
       classified := if Discarding(c, clock.discard) || n > |input| then t.classified else t.classified + input[..n])
  }

  /** Acceptance past the due terminations keeps the whole invariant, owns an exact prefix, and takes
      nothing of a non-empty input only when the queue is exactly full. */
  lemma {:induction false} TakeKeeps(c: Config, t: Trace, input: seq<Byte>, clock: Clock)
    requires Inv(c, t) && input != [] && (t.s.limit.Some? ==> t.s.limit.value.remaining > 0)
    ensures var (s, n) := if Discarding(c, clock.discard) then AcceptDiscarding(c, t.s, |input|)
                          else if HasLoss(t.s.loss) then AcceptLossy(c, t.s, input, clock.now)
                          else AcceptPreserving(c, t.s, input, clock.now);
            && n <= |input| && (n == 0 ==> s.pipe.buffered == c.maxBuffer)
            && Inv(c, t.(s := s, taken := t.taken + n,
                         classified := if Discarding(c, clock.discard) then t.classified
                           else t.classified + input[..n]))
  {
    StatesMatchConfig(c, t.s.loss, ChunkOf(t.s.loss.offset));
    if Discarding(c, clock.discard) {
      DiscardingKeeps(c, t, |input|);
    } else if Lossy(c) {
      LossyKeeps(c, t, input, clock.now);
    } else {
      PreservingKeeps(c, t, input, clock.now);
    }
  }

  /** Acceptance keeps the whole invariant and owns an exact prefix. A non-empty input is refused
      outright only when the byte limit is exhausted, with its termination already published, or
      when the bounded queue is exactly full. */
  lemma {:induction false} AcceptKeeps(c: Config, t: Trace, input: seq<Byte>, clock: Clock)
    requires Inv(c, t)
    ensures Inv(c, Accepted(c, t, input, clock))
    ensures var (s, n) := Accept(c, t.s, input, clock);
            && n <= |input|
            && (input != [] && n == 0 ==>
                  || (s.limit.Some? && s.limit.value.remaining == 0 && s.termination.Some?)
                  || s.pipe.buffered == c.maxBuffer)
  {
    RefreshKeeps(c, t, clock.due);
    var r := t.(s := Refresh(c, t.s, clock.due));
    if input == [] || (r.s.limit.Some? && r.s.limit.value.remaining == 0) {
      assert t.classified + input[..0] == t.classified;
    } else {
      TakeKeeps(c, r, input, clock);
    }
  }
}
