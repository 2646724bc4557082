/** A stream whose writes pass through a live-updated fault plan (stream.rs, `ChaosStream`), on
    values: the direct path for empty plans, and the drain barrier between engine generations. */
module ChaosStreamSpec {
  import opened Common
  import opened StreamPlan
  import Core = StreamEngine
  import opened StreamEngine
  import opened StreamLoss
  import opened StreamProofs
  import opened StreamRuns
  import LivePolicies

  /** One atomically loaded policy snapshot. */
  type Published = LivePolicies.StreamPolicy

  /** Reply of the inner writer's own flush. */
  datatype FlushReply = FlushPending | FlushDone | FlushFailed

  /** One engine flush as the environment plays it. */
  datatype FlushIo = FlushIo(io: seq<Io>, reply: FlushReply)

  datatype Polled = NotReady | Done | Failing

  /** What a poll observes of the live policy, and the flush that may precede a transition. */
  datatype Live = Live(snapshot: Published, now: nat, flush: FlushIo)

  datatype Poll =
    | PollWrite(live: Live, bytes: seq<Byte>, direct: Reply, before: FlushIo, clock: Clock, after: FlushIo)
    | PollFlush(live: Live, flush: FlushIo)
    /** Shutting down drains like a flush; `flush.reply` stands for the slow-close wait and the writer's own
        shutdown that follow. */
    | PollShutdown(live: Live, flush: FlushIo)
    /** Reading pumps the write queue without observing the policy. */
    | PollRead(pump: FlushIo)

  /** `Reading(ends)` says whether an idle read is reported as the end of the stream. */
  datatype Answer = Again | Took(n: nat) | Flushed | Terminated | Broken | Reading(ends: bool)

  /** A preserved byte and the generation under which it was accepted. */
  datatype Tagged = Tagged(generation: nat, byte: Byte)

  /** The fixed identity of a wrapped stream: seeds by namespace, and direction. */
  datatype Identity = Identity(seedsOf: nat -> Seeds, direction: Direction)

  /** A stream and its whole history: the engine's, the bytes that bypassed it, the evidence last
      mirrored, the tagged bytes the writer received (`sent`) and is owed (`owed`), all bytes ever accepted
      for it (`preserved`), and the number of those given up on by transitions whose drain failed. */
  datatype View = View(
    c: Config, t: Trace, generation: nat, pending: nat, transitions: nat, direct: nat, mirror: Ledger,
    sent: seq<Tagged>, owed: seq<Tagged>, preserved: seq<Tagged>, abandoned: nat)

  ghost function Tag(generation: nat, bytes: seq<Byte>): (r: seq<Tagged>)
    ensures |r| == |bytes|
  {
    if bytes == [] then [] else [Tagged(generation, bytes[0])] + Tag(generation, bytes[1..])
  }

  lemma {:induction false} TagConcat(g: nat, a: seq<Byte>, b: seq<Byte>)
    ensures Tag(g, a + b) == Tag(g, a) + Tag(g, b)
  {
    if a == [] {
      assert a + b == b;
    } else {
      assert (a + b)[1..] == a[1..] + b;
      TagConcat(g, a[1..], b);
    }
  }

  lemma {:induction false} TagGeneration(g: nat, bytes: seq<Byte>, i: nat)
    requires i < |bytes|
    ensures Tag(g, bytes)[i].generation == g
  {
    if i > 0 {
      TagGeneration(g, bytes[1..], i - 1);
    }
  }

  /** Generations never decrease along the list, and none exceeds `top`. */
  ghost predicate Ascending(xs: seq<Tagged>, top: nat) {
    && (forall i, j :: 0 <= i < j < |xs| ==> xs[i].generation <= xs[j].generation)
    && (forall i :: 0 <= i < |xs| ==> xs[i].generation <= top)
  }

  lemma {:induction false} AscendingAppend(xs: seq<Tagged>, g: nat, bytes: seq<Byte>)
    requires Ascending(xs, g)
    ensures Ascending(xs + Tag(g, bytes), g)
  {
    forall i | 0 <= i < |bytes| ensures Tag(g, bytes)[i].generation == g {
      TagGeneration(g, bytes, i);
    }
  }

  /** The owed bytes are those sent and those queued, in order of generations; nothing preserved is
      missing from them unless it was abandoned. */
  ghost predicate BytesOk(g: nat, queued: seq<Byte>, sent: seq<Tagged>, owed: seq<Tagged>, preserved: seq<Tagged>,
                          abandoned: nat) {
    && sent + Tag(g, queued) == owed && Ascending(owed, g)
    && |preserved| == |owed| + abandoned && (abandoned == 0 ==> preserved == owed)
  }

  ghost predicate ViewOk(v: View) {
    && ConfigOk(v.c) && Inv(v.c, v.t)
    && BytesOk(v.generation, Contents(v.t.s.pipe.queue), v.sent, v.owed, v.preserved, v.abandoned)
    && |v.sent| == v.t.s.ledger.forwarded + v.direct
    && v.t.base.abandoned == v.abandoned
    && (v.c.faults == [] ==> v.t.s.pipe.queue == [])
    && AtMost(v.mirror, Totals(v))
  }

  lemma {:induction false} BytesFlushed(g: nat, moved: seq<Byte>, rest: seq<Byte>, sent: seq<Tagged>, owed: seq<Tagged>,
                     preserved: seq<Tagged>, abandoned: nat)
    requires BytesOk(g, moved + rest, sent, owed, preserved, abandoned)
    ensures BytesOk(g, rest, sent + Tag(g, moved), owed, preserved, abandoned)
  {
    TagConcat(g, moved, rest);
    assert sent + (Tag(g, moved) + Tag(g, rest)) == (sent + Tag(g, moved)) + Tag(g, rest);
  }

  lemma {:induction false} BytesAccepted(g: nat, queued: seq<Byte>, extra: seq<Byte>, sent: seq<Tagged>,
                                         owed: seq<Tagged>,
                      preserved: seq<Tagged>, abandoned: nat)
    requires BytesOk(g, queued, sent, owed, preserved, abandoned)
    ensures BytesOk(g, queued + extra, sent, owed + Tag(g, extra), preserved + Tag(g, extra), abandoned)
  {
    TagConcat(g, queued, extra);
    assert sent + (Tag(g, queued) + Tag(g, extra)) == (sent + Tag(g, queued)) + Tag(g, extra);
    AscendingAppend(owed, g, extra);
  }

  /** A transition abandons what is still queued. */
  lemma {:induction false} BytesSwapped(g: nat, queued: seq<Byte>, sent: seq<Tagged>, owed: seq<Tagged>,
                                        preserved: seq<Tagged>,
                     abandoned: nat, next: nat)
    requires BytesOk(g, queued, sent, owed, preserved, abandoned) && g <= next
    ensures BytesOk(next, [], sent, sent, preserved, abandoned + |queued|)
    ensures queued == [] ==> owed == sent
  {
    assert Tag(next, []) == [] && sent + [] == sent;
    assert sent == owed[..|sent|];
    if queued == [] {
      assert Tag(g, []) == [];
    }
  }

  /** The barrier: once one byte of a generation has been sent, every byte owed under an earlier
      generation has been sent before it. */
  lemma {:induction false} BarrierOrder(v: View, i: nat, j: nat)
    requires ViewOk(v) && i < |v.sent| && j < |v.owed|
    requires v.owed[j].generation < v.sent[i].generation
    ensures j < i && v.sent[j] == v.owed[j]
  {
    assert v.owed[i] == v.sent[i];
  }

  ghost predicate AtMost(a: Ledger, b: Ledger) {
    a.accepted <= b.accepted && a.forwarded <= b.forwarded && a.discarded <= b.discarded &&
      a.lossDiscarded <= b.lossDiscarded
  }

  /** Counters over all generations, including direct bytes. */
  ghost function Totals(v: View): Ledger {
    var l := v.t.s.ledger;
    Ledger(l.accepted + v.direct, l.forwarded + v.direct, l.discarded, l.lossDiscarded)
  }

  ghost function Mirrored(v: View): View { v.(mirror := Totals(v)) }

  /** Conservation over the whole life of the stream, across every transition: what was accepted has
      reached the writer, was discarded, is buffered, or was abandoned by a failed transition. */
  lemma {:induction false} Conservation(v: View)
    requires ViewOk(v)
    ensures Totals(v).accepted == |v.sent| + Totals(v).discarded + v.t.s.pipe.buffered + v.abandoned
    ensures v.sent <= v.owed && |v.owed| == |v.sent| + v.t.s.pipe.buffered
  {
  }

  /** What never goes back: counters, observed generations, received bytes, a published termination,
      and, while nothing is abandoned, the bytes owed to the writer. */
  ghost predicate Onward(v: View, w: View) {
    && AtMost(Totals(v), Totals(w)) && AtMost(v.mirror, w.mirror)
    && v.generation <= w.generation && v.transitions <= w.transitions && v.abandoned <= w.abandoned
    && v.sent <= w.sent && v.preserved <= w.preserved && (v.abandoned == w.abandoned ==> v.owed <= w.owed)
    && (v.t.s.handle.Some? ==> w.t.s.handle == v.t.s.handle && w.t.s.termination == v.t.s.handle)
  }

  // --- Flushing the engine ---

  function PolledOf(outcome: Outcome, reply: FlushReply): Polled {
    match outcome
    case Drained => if reply.FlushPending? then NotReady else if reply.FlushFailed? then Failing else Done
    case Blocked => NotReady
    case Failed => Failing
  }

  /** Drained bytes reach the writer in order. */
  ghost function FlushEngine(v: View, f: FlushIo): (View, Polled) {
    var (s, writes, outcome) := Drain(v.t.s, f.io);
    (v.(t := StreamRuns.Flushed(v.t, f.io), sent := v.sent + Tag(v.generation, Wire(writes))),
     PolledOf(outcome, f.reply))
  }

  lemma {:induction false} DrainLedger(s: Engine, io: seq<Io>)
    ensures var t := Drain(s, io).0;
            && t.ledger == s.ledger.(forwarded := t.ledger.forwarded) && s.ledger.forwarded <= t.ledger.forwarded
            && t.handle == s.handle && t.termination == s.termination
    decreases |io|
  {
    if s.pipe.queue != [] && io != [] {
      DrainLedger(DrainOnce(s, io[0]).0, io[1..]);
    }
  }

  lemma {:induction false} CancelPrefix(f: seq<Byte>, q: seq<Byte>, m: seq<Byte>, rest: seq<Byte>)
    requires f + q == (f + m) + rest
    ensures q == m + rest
  {
    assert (f + m) + rest == f + (m + rest);
    assert q == (f + q)[|f|..] && m + rest == (f + (m + rest))[|f|..];
  }

  /** Draining moves a prefix of the queue to the wire. */
  lemma {:induction false} DrainMoves(c: Config, t: Trace, io: seq<Io>)
    requires Inv(c, t) && Inv(c, StreamRuns.Flushed(t, io))
    ensures var (s, writes, outcome) := Drain(t.s, io);
            Contents(t.s.pipe.queue) == Wire(writes) + Contents(s.pipe.queue) &&
              s.ledger.forwarded == t.s.ledger.forwarded + |Wire(writes)|
  {
    var u := StreamRuns.Flushed(t, io);
    var m := Wire(Drain(t.s, io).1);
    assert u.forwarded == t.forwarded + m && u.classified == t.classified && u.base == t.base;
    CancelPrefix(t.forwarded, Contents(t.s.pipe.queue), m, Contents(u.s.pipe.queue));
  }

  lemma {:induction false} FlushKeeps(v: View, f: FlushIo)
    requires ViewOk(v) && Clocked(f.io)
    ensures ViewOk(FlushEngine(v, f).0) && Onward(v, FlushEngine(v, f).0)
    ensures FlushEngine(v, f).1.Done? ==> FlushEngine(v, f).0.t.s.pipe.queue == []
  {
    DrainKeeps(v.c, v.t, f.io);
    DrainMoves(v.c, v.t, f.io);
    DrainLedger(v.t.s, f.io);
    var (s, writes, outcome) := Drain(v.t.s, f.io);
    BytesFlushed(v.generation, Wire(writes), Contents(s.pipe.queue), v.sent, v.owed, v.preserved, v.abandoned);
  }

  // --- Accepting through the engine ---

  ghost function AcceptInto(v: View, input: seq<Byte>, clock: Clock): View {
    var t := Accepted(v.c, v.t, input, clock);
    var n := |Delivered(v.t)|;
    var survivors := Tag(v.generation, if n <= |Delivered(t)| then Delivered(t)[n..] else []);
    v.(t := t, owed := v.owed + survivors, preserved := v.preserved + survivors)
  }

  lemma {:induction false} AppendAfter(f: seq<Byte>, q: seq<Byte>, q': seq<Byte>, extra: seq<Byte>)
    requires f + q' == (f + q) + extra
    ensures q' == q + extra && |f + q| <= |f + q'| && (f + q')[|f + q|..] == extra
  {
    assert (f + q) + extra == f + (q + extra);
    assert q' == (f + q')[|f|..] && q + extra == (f + (q + extra))[|f|..];
  }

  /** What an accepted history appends to the surviving stream. */
  lemma {:induction false} AcceptedExtends(c: Config, t: Trace, input: seq<Byte>, clock: Clock)
    returns (extra: seq<Byte>)
    ensures Survivors(c, 0, Accepted(c, t, input, clock).classified) == Survivors(c, 0, t.classified) + extra
  {
    var n := Core.Accept(c, t.s, input, clock).1;
    if Discarding(c, clock.discard) || n > |input| {
      extra := [];
    } else {
      SurvivorsConcat(c, 0, t.classified, input[..n]);
      extra := Survivors(c, |t.classified|, input[..n]);
    }
  }

  /** Acceptance appends the surviving bytes to what the engine has delivered so far. */
  lemma {:induction false} AcceptDelivers(c: Config, t: Trace, input: seq<Byte>, clock: Clock)
    requires Inv(c, t)
    ensures var u := Accepted(c, t, input, clock);
            && Inv(c, u) && u.base == t.base && |Delivered(t)| <= |Delivered(u)|
            && Contents(u.s.pipe.queue) == Contents(t.s.pipe.queue) + Delivered(u)[|Delivered(t)|..]
  {
    AcceptKeeps(c, t, input, clock);
    var u := Accepted(c, t, input, clock);
    var extra := AcceptedExtends(c, t, input, clock);
    AppendAfter(t.forwarded, Contents(t.s.pipe.queue), Contents(u.s.pipe.queue), extra);
  }

  /** Byte counters never decrease, only draining forwards, and a published termination stays. */
  ghost predicate Advances(s: Engine, t: Engine) {
    && s.ledger.accepted <= t.ledger.accepted && s.ledger.forwarded == t.ledger.forwarded
    && s.ledger.discarded <= t.ledger.discarded && s.ledger.lossDiscarded <= t.ledger.lossDiscarded
    && (s.handle.Some? ==> t.handle == s.handle)
  }

  lemma {:induction false} SettleAdvances(c: Config, s: Engine, p: Pipe, l: Loss, n: nat, discarded: nat, lost: nat)
    ensures Advances(s, Settle(c, s.(pipe := p, loss := l), n, discarded, lost))
  {
  }

  lemma {:induction false} LossyAdvances(c: Config, s: Engine, input: seq<Byte>, now: nat)
    ensures Advances(s, AcceptLossy(c, s, input, now).0)
  {
    var k := Classify(c, s.pipe, s.loss, input[..WithinLimit(s, |input|)], now);
    SettleAdvances(c, s, k.pipe, k.loss, k.taken, k.discarded, k.discarded);
  }

  lemma {:induction false} PreservingAdvances(c: Config, s: Engine, input: seq<Byte>, now: nat)
    ensures Advances(s, AcceptPreserving(c, s, input, now).0)
  {
    var cap: nat := Min(WithinLimit(s, |input|), Minus(c.maxBuffer, s.pipe.buffered));
    var (p, n) := PushRun(c, s.pipe, input[..cap], now);
    SettleAdvances(c, s, p, s.loss, n, 0, 0);
  }

  lemma {:induction false} AcceptAdvances(c: Config, s: Engine, input: seq<Byte>, clock: Clock)
    ensures Advances(s, Core.Accept(c, s, input, clock).0)
  {
    var r := Refresh(c, s, clock.due);
    assert Advances(s, r);
    var cap := WithinLimit(r, |input|);
    var pipe := r.pipe.(work := r.pipe.work.(segments := r.pipe.work.segments + 1));
    SettleAdvances(c, r, pipe, r.loss, cap, cap, 0);
    LossyAdvances(c, r, input, clock.now);
    PreservingAdvances(c, r, input, clock.now);
  }

  lemma {:induction false} AcceptKeepsView(v: View, input: seq<Byte>, clock: Clock)
    requires ViewOk(v) && v.c.faults != []
    ensures ViewOk(AcceptInto(v, input, clock)) && Onward(v, AcceptInto(v, input, clock))
  {
    var u := Accepted(v.c, v.t, input, clock);
    var w := AcceptInto(v, input, clock);
    AcceptDelivers(v.c, v.t, input, clock);
    AcceptAdvances(v.c, v.t.s, input, clock);
    var extra := Delivered(u)[|Delivered(v.t)|..];
    BytesAccepted(v.generation, Contents(v.t.s.pipe.queue), extra, v.sent, v.owed, v.preserved, v.abandoned);
    assert w == v.(t := u, owed := v.owed + Tag(v.generation, extra),
                   preserved := v.preserved + Tag(v.generation, extra));
  }

  // --- The direct path ---

  /** With an empty plan the writer gets the bytes at once; nothing is queued that they could overtake. */
  ghost function WriteDirect(v: View, bytes: seq<Byte>): View {
    var tagged := Tag(v.generation, bytes);
    var m := v.mirror;
    v.(direct := v.direct + |bytes|, sent := v.sent + tagged, owed := v.owed + tagged,
       preserved := v.preserved + tagged,
       mirror := m.(accepted := m.accepted + |bytes|, forwarded := m.forwarded + |bytes|))
  }

  lemma {:induction false} DirectKeeps(v: View, bytes: seq<Byte>)
    requires ViewOk(v) && v.c.faults == []
    ensures ViewOk(WriteDirect(v, bytes)) && Onward(v, WriteDirect(v, bytes))
  {
    assert [] + bytes == bytes && bytes + [] == bytes;
    BytesAccepted(v.generation, [], bytes, v.sent, v.owed, v.preserved, v.abandoned);
    BytesFlushed(v.generation, bytes, [], v.sent, WriteDirect(v, bytes).owed, WriteDirect(v, bytes).preserved,
                 v.abandoned);
  }

  // --- Live transitions ---

  /** Replace the engine by one compiled from the snapshot. Anything still queued is abandoned. */
  ghost function Swap(id: Identity, v: View, snapshot: Published, now: nat): View {
    var seeds := id.seedsOf(snapshot.namespace);
    var e := EvidenceOf(v.t.s);
    var left := v.abandoned + v.t.s.pipe.buffered;
    var s := Absorb(FreshEngine(snapshot.plan, seeds, now, v.t.s.handle), e);
    Mirrored(v.(c := ConfigOf(snapshot.plan, seeds, id.direction, now),
                t := Trace(s, [], [], 0, Base(e.ledger, e.chunksEvaluated, e.chunksDropped, left)),
                generation := snapshot.generation, pending := 0, transitions := v.transitions + 1,
                owed := v.sent, abandoned := left))
  }

  lemma {:induction false} SwapKeeps(id: Identity, v: View, snapshot: Published, now: nat)
    requires ViewOk(v) && v.generation <= snapshot.generation
    ensures ViewOk(Swap(id, v, snapshot, now)) && Onward(v, Swap(id, v, snapshot, now))
    ensures v.t.s.pipe.queue == [] ==>
              Swap(id, v, snapshot, now).abandoned == v.abandoned && Swap(id, v, snapshot, now).owed == v.owed
  {
    var seeds := id.seedsOf(snapshot.namespace);
    FreshKeeps(snapshot.plan, seeds, id.direction, now, v.t.s.handle);
    var s := FreshEngine(snapshot.plan, seeds, now, v.t.s.handle);
    var c := ConfigOf(snapshot.plan, seeds, id.direction, now);
    AbsorbKeeps(c, Trace(s, [], [], 0, NO_BASE), v.c, v.t);
    BytesSwapped(v.generation, Contents(v.t.s.pipe.queue), v.sent, v.owed, v.preserved, v.abandoned,
                 snapshot.generation);
  }

  /** Observe the live policy: nothing to do, still draining, or transitioned. */
  ghost function UpdateLive(id: Identity, v: View, live: Live): (View, bool) {
    if live.snapshot.generation == v.generation then (v, true)
    else
      var marked := v.(pending := live.snapshot.generation);
      if v.t.s.pipe.queue == [] then (Swap(id, marked, live.snapshot, live.now), true)
      else
        var (w, r) := FlushEngine(marked, live.flush);
        if r.NotReady? then (w, false) else (Swap(id, w, live.snapshot, live.now), true)
  }

  /** The policy moved and the drain that precedes the transition hits a write error. */
  ghost predicate BarrierFails(v: View, live: Live) {
    live.snapshot.generation != v.generation && v.t.s.pipe.queue != [] && Drain(v.t.s, live.flush.io).2.Failed?
  }

  lemma {:induction false} QueuedBytes(queue: seq<Queued>)
    requires NoneEmpty(queue) && queue != []
    ensures |Contents(queue)| > 0
  {
  }

  lemma {:induction false} BarrierKeeps(id: Identity, v: View, live: Live)
    requires ViewOk(v) && Clocked(live.flush.io) && v.generation <= live.snapshot.generation && v.t.s.pipe.queue != []
    ensures var (u, r) := FlushEngine(v, live.flush);
            var w := Swap(id, u, live.snapshot, live.now);
            && ViewOk(u) && Onward(v, u) && Same(v, u) && ViewOk(w) && Onward(v, w)
            && (!r.NotReady? ==> (w.abandoned > v.abandoned <==> Drain(v.t.s, live.flush.io).2.Failed?))
            && (r.NotReady? ==> !Drain(v.t.s, live.flush.io).2.Failed?)
  {
    FlushKeeps(v, live.flush);
    DrainKeeps(v.c, v.t, live.flush.io);
    var (u, r) := FlushEngine(v, live.flush);
    SwapKeeps(id, u, live.snapshot, live.now);
    OnwardTrans(v, u, Swap(id, u, live.snapshot, live.now));
    if u.t.s.pipe.queue != [] {
      QueuedBytes(u.t.s.pipe.queue);
    }
  }

  lemma {:induction false} MarkedOk(v: View, generation: nat)
    requires ViewOk(v)
    ensures ViewOk(v.(pending := generation)) && Onward(v, v.(pending := generation))
  {
  }

  /** A transition keeps every invariant, and gives up bytes exactly when its drain fails. */
  lemma {:induction false} UpdateKeeps(id: Identity, v: View, live: Live)
    requires ViewOk(v) && Clocked(live.flush.io) && v.generation <= live.snapshot.generation
    ensures var (w, ready) := UpdateLive(id, v, live);
            && ViewOk(w) && Onward(v, w)
            && w.generation == (if ready then live.snapshot.generation else v.generation)
            && (w.abandoned > v.abandoned <==> BarrierFails(v, live))
  {
    if live.snapshot.generation != v.generation {
      var marked := v.(pending := live.snapshot.generation);
      MarkedOk(v, live.snapshot.generation);
      if v.t.s.pipe.queue == [] {
        SwapKeeps(id, marked, live.snapshot, live.now);
        OnwardTrans(v, marked, Swap(id, marked, live.snapshot, live.now));
      } else {
        BarrierKeeps(id, marked, live);
        OnwardTrans(v, marked, UpdateLive(id, v, live).0);
      }
    }
  }

  lemma {:induction false} OnwardTrans(u: View, v: View, w: View)
    requires Onward(u, v) && Onward(v, w)
    requires SignalsOk(v.t.s)
    ensures Onward(u, w)
  {
  }

  // --- Whole polls ---

  ghost function WriteThrough(v: View, bytes: seq<Byte>, before: FlushIo, clock: Clock, after: FlushIo): (View,
                                                                                                          Answer) {
    var (f, r) := FlushEngine(v, before);
    if r.Failing? then (Mirrored(f), Broken)
    else if bytes == [] then (f, Took(0))
    else if f.t.s.termination.Some? && f.t.s.pipe.queue == [] then (f, Terminated)
    else AcceptAndDrive(f, bytes, clock, after)
  }

  ghost function AcceptAndDrive(v: View, bytes: seq<Byte>, clock: Clock, after: FlushIo): (View, Answer) {
    var a := AcceptInto(v, bytes, clock);
    var n := Core.Accept(v.c, v.t.s, bytes, clock).1;
    if n > 0 then (Mirrored(FlushEngine(a, after).0), Took(n))
    else (a, if a.t.s.termination.Some? && a.t.s.pipe.queue == [] then Terminated else Again)
  }

  ghost function WritePast(v: View, bytes: seq<Byte>, direct: Reply): (View, Answer) {
    match direct
    case Pending => (v, Again)
    case Failure => (v, Broken)
    case Wrote(n) => (WriteDirect(v, bytes[..Min(n, |bytes|)]), Took(n))
  }

  /** Drain, mirror, and answer. */
  ghost function FlushAndMirror(v: View, f: FlushIo): (View, Answer) {
    var (w, r) := FlushEngine(v, f);
    (Mirrored(w), if r.NotReady? then Again else if r.Failing? then Broken else Flushed)
  }

  /** What a poll does once the live policy has been observed. */
  ghost function Act(v: View, p: Poll): (View, Answer)
    requires !p.PollRead?
  {
    match p
    case PollWrite(_, bytes, direct, before, clock, after) =>
      if v.c.faults == [] then WritePast(v, bytes, direct) else WriteThrough(v, bytes, before, clock, after)
    case PollFlush(_, flush) => FlushAndMirror(v, flush)
    case PollShutdown(_, flush) => FlushAndMirror(v, flush)
  }

  /** The read pump: drive releasable bytes, whatever becomes of it. A graceful termination ends idle reads
      once the queue has drained. */
  ghost function Pump(v: View, pump: FlushIo): (View, Answer) {
    if v.c.faults == [] then (v, Reading(false))
    else
      var w := Mirrored(FlushEngine(v, pump).0);
      var ending := w.t.s.termination.Some? && w.t.s.termination.value.request.Graceful?;
      (w, Reading(w.t.s.pipe.queue == [] && ending))
  }

  ghost function Step(id: Identity, v: View, p: Poll): (View, Answer) {
    if p.PollRead? then Pump(v, p.pump)
    else
      var (u, ready) := UpdateLive(id, v, p.live);
      if ready then Act(u, p) else (u, Again)
  }

  /** What the environment promises of one poll: clocks run forward, and a direct write reports at
      most what it was offered. */
  ghost predicate Honest(p: Poll) {
    match p
    case PollWrite(live, bytes, direct, before, _, after) =>
      && Clocked(live.flush.io) && Clocked(before.io) && Clocked(after.io)
      && (direct.Wrote? ==> direct.n <= |bytes|)
    case PollFlush(live, flush) => Clocked(live.flush.io) && Clocked(flush.io)
    case PollShutdown(live, flush) => Clocked(live.flush.io) && Clocked(flush.io)
    case PollRead(pump) => Clocked(pump.io)
  }

  /** The newest generation shown to the stream, after a poll. */
  ghost function Newest(generation: nat, p: Poll): nat {
    if p.PollRead? then generation else p.live.snapshot.generation
  }

  /** The poll makes a transition whose drain hits a write error. */
  ghost predicate LosesBytes(v: View, p: Poll) {
    !p.PollRead? && BarrierFails(v, p.live)
  }

  lemma {:induction false} MirrorKeeps(v: View)
    requires ViewOk(v)
    ensures ViewOk(Mirrored(v)) && Onward(v, Mirrored(v))
  {
  }

  /** Outside a transition neither the generation nor what was abandoned changes. */
  ghost predicate Same(v: View, w: View) {
    w.generation == v.generation && w.abandoned == v.abandoned
  }

  /** One step between transitions. */
  ghost predicate Within(v: View, w: View) {
    ViewOk(w) && Onward(v, w) && Same(v, w)
  }

  lemma {:induction false} WithinTrans(u: View, v: View, w: View)
    requires Within(u, v) && Within(v, w)
    ensures Within(u, w)
  {
    OnwardTrans(u, v, w);
  }

  lemma {:induction false} AcceptWithin(v: View, bytes: seq<Byte>, clock: Clock)
    requires ViewOk(v) && v.c.faults != []
    ensures Within(v, AcceptInto(v, bytes, clock)) && Core.Accept(v.c, v.t.s, bytes, clock).1 <= |bytes|
  {
    AcceptKeepsView(v, bytes, clock);
    AcceptKeeps(v.c, v.t, bytes, clock);
  }

  lemma {:induction false} FlushWithin(v: View, f: FlushIo)
    requires ViewOk(v) && Clocked(f.io)
    ensures var w := FlushEngine(v, f).0; Within(v, w) && Within(v, Mirrored(w)) && w.c == v.c
  {
    FlushKeeps(v, f);
    var u := FlushEngine(v, f).0;
    MirrorKeeps(u);
    WithinTrans(v, u, Mirrored(u));
  }

  lemma {:induction false} WriteThroughKeeps(v: View, bytes: seq<Byte>, before: FlushIo, clock: Clock, after: FlushIo)
    requires ViewOk(v) && v.c.faults != [] && Clocked(before.io) && Clocked(after.io)
    ensures var (w, a) := WriteThrough(v, bytes, before, clock, after);
            Within(v, w) && (a.Took? ==> a.n <= |bytes|)
  {
    FlushWithin(v, before);
    var f := FlushEngine(v, before).0;
    AcceptAndDriveKeeps(f, bytes, clock, after);
    WithinTrans(v, f, AcceptAndDrive(f, bytes, clock, after).0);
  }

  lemma {:induction false} AcceptAndDriveKeeps(v: View, bytes: seq<Byte>, clock: Clock, after: FlushIo)
    requires ViewOk(v) && v.c.faults != [] && Clocked(after.io)
    ensures var (w, a) := AcceptAndDrive(v, bytes, clock, after);
            Within(v, w) && (a.Took? ==> a.n <= |bytes|)
  {
    AcceptWithin(v, bytes, clock);
    var a := AcceptInto(v, bytes, clock);
    FlushWithin(a, after);
    WithinTrans(v, a, Mirrored(FlushEngine(a, after).0));
  }

  lemma {:induction false} WritePastKeeps(v: View, bytes: seq<Byte>, direct: Reply)
    requires ViewOk(v) && v.c.faults == []
    ensures Within(v, WritePast(v, bytes, direct).0)
  {
    if direct.Wrote? {
      DirectKeeps(v, bytes[..Min(direct.n, |bytes|)]);
    }
  }

  lemma {:induction false} ActKeeps(v: View, p: Poll)
    requires ViewOk(v) && Honest(p) && !p.PollRead?
    ensures Within(v, Act(v, p).0) && (p.PollWrite? && Act(v, p).1.Took? ==> Act(v, p).1.n <= |p.bytes|)
  {
    match p {
      case PollWrite(_, bytes, direct, before, clock, after) =>
        if v.c.faults == [] {
          WritePastKeeps(v, bytes, direct);
        } else {
          WriteThroughKeeps(v, bytes, before, clock, after);
        }
      case PollFlush(_, flush) => FlushWithin(v, flush);
      case PollShutdown(_, flush) => FlushWithin(v, flush);
    }
  }

  lemma {:induction false} PumpKeeps(v: View, pump: FlushIo)
    requires ViewOk(v) && Clocked(pump.io)
    ensures Within(v, Pump(v, pump).0)
  {
    FlushWithin(v, pump);
    assert Within(v, v);
  }

  /** Every poll keeps the history in order; bytes are given up exactly by a failing barrier. */
  lemma {:induction false} StepKeeps(id: Identity, v: View, p: Poll, generation: nat)
    requires ViewOk(v) && Honest(p) && v.generation <= generation <= Newest(generation, p)
    ensures var (w, a) := Step(id, v, p);
            && ViewOk(w) && Onward(v, w) && w.generation <= Newest(generation, p)
            && (w.abandoned > v.abandoned <==> LosesBytes(v, p))
            && (p.PollWrite? && a.Took? ==> a.n <= |p.bytes|)
  {
    if p.PollRead? {
      PumpKeeps(v, p.pump);
    } else {
      UpdateKeeps(id, v, p.live);
      var (u, ready) := UpdateLive(id, v, p.live);
      if ready {
        ActKeeps(u, p);
        OnwardTrans(v, u, Act(u, p).0);
      }
    }
  }

  // --- Every run ---

  ghost function Play(id: Identity, v: View, polls: seq<Poll>): (View, seq<Answer>)
    decreases |polls|
  {
    if polls == [] then (v, [])
    else
      var (w, a) := Step(id, v, polls[0]);
      var (x, rest) := Play(id, w, polls[1..]);
      (x, [a] + rest)
  }

  /** The environment is honest, and the policy it shows never goes back to an older generation. */
  ghost predicate Timely(generation: nat, polls: seq<Poll>)
    decreases |polls|
  {
    polls == [] || (Honest(polls[0]) && generation <= Newest(generation, polls[0])
                    && Timely(Newest(generation, polls[0]), polls[1..]))
  }

  /** Some transition of the run is preceded by a drain that fails. */
  ghost predicate SomeBarrierFails(id: Identity, v: View, polls: seq<Poll>)
    decreases |polls|
  {
    polls != [] && (LosesBytes(v, polls[0]) || SomeBarrierFails(id, Step(id, v, polls[0]).0, polls[1..]))
  }

  /** Live transitions over every run of polls, against every writer and publisher: order across
      generations, monotone counters and conservation hold throughout, a published termination
      survives every swap, and bytes are abandoned exactly when some transition's drain fails. */
  lemma {:induction false} LiveTransitions(id: Identity, v: View, generation: nat, polls: seq<Poll>)
    requires ViewOk(v) && v.generation <= generation && Timely(generation, polls)
    ensures var w := Play(id, v, polls).0;
            && ViewOk(w) && Onward(v, w)
            && (w.abandoned > v.abandoned <==> SomeBarrierFails(id, v, polls))
    decreases |polls|
  {
    if polls != [] {
      StepKeeps(id, v, polls[0], generation);
      var u := Step(id, v, polls[0]).0;
      LiveTransitions(id, u, Newest(generation, polls[0]), polls[1..]);
      OnwardTrans(v, u, Play(id, u, polls[1..]).0);
    } else {
      assert Onward(v, v);
    }
  }

  /** A stream as constructed from a policy snapshot. */
  ghost function Opened(id: Identity, snapshot: Published, now: nat): View {
    var seeds := id.seedsOf(snapshot.namespace);
    View(ConfigOf(snapshot.plan, seeds, id.direction, now),
         Trace(FreshEngine(snapshot.plan, seeds, now, None), [], [], 0, NO_BASE),
         snapshot.generation, 0, 0, 0, Ledger(0, 0, 0, 0), [], [], [], 0)
  }

  lemma {:induction false} OpenedOk(id: Identity, snapshot: Published, now: nat)
    ensures ViewOk(Opened(id, snapshot, now))
  {
    FreshKeeps(snapshot.plan, id.seedsOf(snapshot.namespace), id.direction, now, None);
  }

  /** Everything ever preserved is on the wire or queued, in order, and no byte on the wire precedes one
      preserved under an earlier generation. */
  ghost predicate AllInOrder(w: View) {
    && w.preserved == w.sent + Tag(w.generation, Contents(w.t.s.pipe.queue))
    && (forall i, j | 0 <= i < |w.sent| && 0 <= j < |w.preserved| ::
          w.preserved[j].generation < w.sent[i].generation ==> j < i && w.sent[j] == w.preserved[j])
  }

  lemma {:induction false} NothingAbandoned(w: View)
    requires ViewOk(w) && w.abandoned == 0
    ensures AllInOrder(w)
    ensures Totals(w).accepted == |w.sent| + Totals(w).discarded + w.t.s.pipe.buffered
  {
    Conservation(w);
    forall i, j | 0 <= i < |w.sent| && 0 <= j < |w.preserved| && w.preserved[j].generation < w.sent[i].generation
      ensures j < i && w.sent[j] == w.preserved[j]
    {
      BarrierOrder(w, i, j);
    }
  }

  /** The drain barrier over whole runs, in one statement. A stream is opened and polled against any
      writer and any publisher. Unless some transition's drain fails, everything ever preserved is on the
      wire or still queued, in order, and no byte reaches the wire before every byte preserved under an
      earlier generation. If one fails, bytes are missing from both. */
  lemma {:induction false} Barrier(id: Identity, snapshot: Published, now: nat, polls: seq<Poll>)
    requires Timely(snapshot.generation, polls)
    ensures var start := Opened(id, snapshot, now); var w := Play(id, start, polls).0;
            && ViewOk(w)
            && (SomeBarrierFails(id, start, polls) <==> |w.preserved| > |w.sent| + w.t.s.pipe.buffered)
            && (!SomeBarrierFails(id, start, polls) ==> AllInOrder(w))
  {
    var start := Opened(id, snapshot, now);
    var w := Play(id, start, polls).0;
    OpenedOk(id, snapshot, now);
    LiveTransitions(id, start, snapshot.generation, polls);
    Conservation(w);
    if !SomeBarrierFails(id, start, polls) {
      NothingAbandoned(w);
    }
  }

  // --- When a caller may rely on the barrier ---

  /** The writer never errs while it drains `s`: whenever it is offered bytes it is not ready, or takes some
      of them, at most what it was offered. */
  ghost predicate NeverErrs(s: Engine, io: seq<Io>)
    decreases |io|
  {
    s.pipe.queue != [] && io != [] ==>
      && !io[0].reply.Failure?
      && (io[0].reply.Wrote? ==> 0 < io[0].reply.n <= |s.pipe.queue[0].bytes|)
      && NeverErrs(DrainOnce(s, io[0]).0, io[1..])
  }

  lemma {:induction false} NeverErrsNeverFails(s: Engine, io: seq<Io>)
    requires NeverErrs(s, io)
    ensures !Drain(s, io).2.Failed?
    decreases |io|
  {
    if s.pipe.queue != [] && io != [] {
      NeverErrsNeverFails(DrainOnce(s, io[0]).0, io[1..]);
    }
  }

  /** The writer errs in none of the drains that precede the run's transitions. */
  ghost predicate WriterHealthy(id: Identity, v: View, polls: seq<Poll>)
    decreases |polls|
  {
    polls != [] ==>
      && (!polls[0].PollRead? ==> NeverErrs(v.t.s, polls[0].live.flush.io))
      && WriterHealthy(id, Step(id, v, polls[0]).0, polls[1..])
  }

  lemma {:induction false} HealthyNeverFails(id: Identity, v: View, polls: seq<Poll>)
    requires WriterHealthy(id, v, polls)
    ensures !SomeBarrierFails(id, v, polls)
    decreases |polls|
  {
    if polls != [] {
      if !polls[0].PollRead? {
        NeverErrsNeverFails(v.t.s, polls[0].live.flush.io);
      }
      HealthyNeverFails(id, Step(id, v, polls[0]).0, polls[1..]);
    }
  }

  lemma {:induction false} HealthyKeeps(id: Identity, v: View, generation: nat, polls: seq<Poll>)
    requires ViewOk(v) && v.abandoned == 0 && v.generation <= generation
    requires Timely(generation, polls) && WriterHealthy(id, v, polls)
    ensures LosslessInOrder(Play(id, v, polls).0)
  {
    HealthyNeverFails(id, v, polls);
    LiveTransitions(id, v, generation, polls);
    NothingAbandoned(Play(id, v, polls).0);
  }

  ghost predicate LosslessInOrder(w: View) {
    AllInOrder(w) && Totals(w).accepted == |w.sent| + Totals(w).discarded + w.t.s.pipe.buffered
  }

  /** While the writer never reports a write error, nothing accepted for it is ever lost or reordered, across
      any transitions. */
  lemma {:induction false} HealthyLosesNothing(id: Identity, snapshot: Published, now: nat, polls: seq<Poll>)
    requires Timely(snapshot.generation, polls) && WriterHealthy(id, Opened(id, snapshot, now), polls)
    ensures LosslessInOrder(Play(id, Opened(id, snapshot, now), polls).0)
  {
    OpenedOk(id, snapshot, now);
    HealthyKeeps(id, Opened(id, snapshot, now), snapshot.generation, polls);
  }

  // --- Failing barriers do happen ---

  /** Whatever is queued, a newer snapshot and a writer that fails at the first due moment give it up. */
  lemma {:induction false} FailureAbandons(id: Identity, v: View, live: Live)
    requires ViewOk(v) && v.t.s.pipe.queue != [] && v.generation < live.snapshot.generation
    requires var at := v.t.s.pipe.queue[0].release; live.flush.io == [Io(at, at, Failure)]
    ensures BarrierFails(v, live) && UpdateLive(id, v, live).0.abandoned > v.abandoned
  {
    UpdateKeeps(id, v, live);
  }

  /** A plan with one fault that never activates. */
  const IDLE_PLAN: seq<FaultSpec> := [FaultSpec("idle", 0.0, SlowClose(0))]

  /** Under it, an accepted byte is queued for immediate release. */
  lemma {:induction false} IdleAccepts(seeds: Seeds, direction: Direction, now: nat, byte: Byte)
    ensures var (s, n) :=
            Core.Accept(ConfigOf(IDLE_PLAN, seeds, direction, now), FreshEngine(IDLE_PLAN, seeds, now, None), [byte],
                        Clock(now, now, now));
            n == 1 && s.pipe.queue == [Queued([byte], now)]
  {
    var c := ConfigOf(IDLE_PLAN, seeds, direction, now);
    var s := FreshEngine(IDLE_PLAN, seeds, now, None);
    var rng := Rng(seeds.step, seeds.activation("idle"));
    var k := CompileFault(seeds, now, NOTHING_COMPILED, IDLE_PLAN[0]);
    assert IDLE_PLAN[1..] == [];
    assert CompileFrom(seeds, now, NOTHING_COMPILED, IDLE_PLAN) == CompileFrom(seeds, now, k, IDLE_PLAN[1..]) == k;
    assert k.active == [false] && k.loss == [None] && k.rngs == [rng];
    assert Refresh(c, s, now) == s && !HasLoss(s.loss) && !Discarding(c, now);
    assert [byte][..1] == [byte] && [byte][1..] == [];
    IdlePush(c, s.pipe, byte, now);
  }

  lemma {:induction false} IdlePush(c: Config, p: Pipe, byte: Byte, now: nat)
    requires c.faults == IDLE_PLAN && c.active == [false] && !c.slicerActive && c.maxBuffer >= 1
    requires p.queue == [] && p.buffered == 0 && p.bucket.None?
    ensures var (q, n) := PushRun(c, p, [byte], now); n == 1 && q.queue == [Queued([byte], now)]
  {
    assert [byte][..1] == [byte] && [byte][1..] == [];
    var d := Delays(p.rngs, now, 0, p.work.injectedMs);
    assert DelayStages(c, 0, d) == DelayStages(c, 1, DelayStage(c, 0, d)) == d;
    assert PushRun(c, PushSegment(c, p, [byte], now), [], now) == (PushSegment(c, p, [byte], now), 0);
  }

  /** One byte is written and stays queued; then a newer policy appears and the writer fails. */
  ghost function DoomedPolls(snapshot: Published, next: Published, now: nat, byte: Byte): seq<Poll> {
    var idle := FlushIo([], FlushDone);
    [PollWrite(Live(snapshot, now, idle), [byte], Reply.Pending, idle, Clock(now, now, now), FlushIo([], FlushPending)),
     PollFlush(Live(next, now, FlushIo([Io(now, now, Failure)], FlushDone)), idle)]
  }

  /** So an accepted byte can be lost across a transition, from any stream opened on that plan. */
  lemma {:induction false} BarrierCanFail(id: Identity, generation: nat, namespace: nat, next: Published, now: nat,
                                          byte: Byte)
    requires generation < next.generation
    ensures var snapshot := LivePolicies.Published(generation, IDLE_PLAN, namespace);
            var (start, polls) := (Opened(id, snapshot, now), DoomedPolls(snapshot, next, now, byte));
            && Timely(generation, polls) && SomeBarrierFails(id, start, polls)
            && Play(id, start, polls).0.abandoned > 0
  {
    var snapshot := LivePolicies.Published(generation, IDLE_PLAN, namespace);
    var (start, polls) := (Opened(id, snapshot, now), DoomedPolls(snapshot, next, now, byte));
    OpenedOk(id, snapshot, now);
    DoomedTimely(snapshot, next, now, byte);
    var v := Step(id, start, polls[0]).0;
    StepKeeps(id, start, polls[0], generation);
    FirstPollQueues(id, snapshot, next, now, byte);
    FailureAbandons(id, v, polls[1].live);
    assert polls[1..][0] == polls[1];
    LiveTransitions(id, start, generation, polls);
  }

  lemma {:induction false} DoomedTimely(snapshot: Published, next: Published, now: nat, byte: Byte)
    requires snapshot.generation < next.generation
    ensures Timely(snapshot.generation, DoomedPolls(snapshot, next, now, byte))
  {
    var polls := DoomedPolls(snapshot, next, now, byte);
    assert Timely(next.generation, polls[1..][1..]);
    assert Timely(snapshot.generation, polls[1..]);
  }

  lemma {:induction false} FirstPollQueues(id: Identity, snapshot: Published, next: Published, now: nat, byte: Byte)
    requires snapshot.plan == IDLE_PLAN
    ensures var v := Step(id, Opened(id, snapshot, now), DoomedPolls(snapshot, next, now, byte)[0]).0;
            v.t.s.pipe.queue == [Queued([byte], now)] && v.generation == snapshot.generation
  {
    IdleAccepts(id.seedsOf(snapshot.namespace), id.direction, now, byte);
  }
}
