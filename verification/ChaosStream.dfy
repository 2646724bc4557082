/** The live-updated stream itself (stream.rs): its engine is replaced in place by transitions, and
    its evidence counters are refreshed by its polls. Each method moves the stream's whole history
    exactly as `ChaosStreamSpec` says. */
module ChaosStreams {
  import opened Common
  import opened StreamEngine
  import opened StreamRuns
  import opened DirectionEngines
  import Spec = ChaosStreamSpec
  import opened ChaosStreamSpec

  /** `sent` is `wire` with generations attached. */
  ghost predicate Records(wire: seq<Byte>, sent: seq<Tagged>) {
    |wire| == |sent| && (forall i :: 0 <= i < |wire| ==> sent[i].byte == wire[i])
  }

  lemma {:induction false} RecordsTag(generation: nat, bytes: seq<Byte>)
    ensures Records(bytes, Tag(generation, bytes))
  {
    if bytes != [] {
      RecordsTag(generation, bytes[1..]);
    }
  }

  lemma {:induction false} RecordsAppend(wire: seq<Byte>, sent: seq<Tagged>, generation: nat, bytes: seq<Byte>)
    requires Records(wire, sent)
    ensures Records(wire + bytes, sent + Tag(generation, bytes))
  {
    RecordsTag(generation, bytes);
  }

  class ChaosStream {
    const id: Identity
    const handle: TerminationHandle
    var engine: DirectionEngine
    var observedGeneration: nat
    /** Shared evidence: transition target being drained, transitions done, bytes that bypassed the
        engine, and the mirrored byte counters. */
    var pendingGeneration: nat
    var transitions: nat
    var directBytes: nat
    var evidence: Ledger
    /** What the inner writer has received. */
    var wire: seq<Byte>
    /** The whole history of the stream. */
    ghost var view: View

    ghost predicate Valid()
      reads this, engine, engine.handle
    {
      && engine.Valid() && engine.handle == handle
      && ViewOk(view) && view.c == engine.config && view.t == engine.history
      && view.generation == observedGeneration && view.pending == pendingGeneration
      && view.transitions == transitions && view.direct == directBytes && view.mirror == evidence
      && Records(wire, view.sent)
    }

    constructor (id: Identity, snapshot: Published, now: nat)
      ensures Valid() && fresh(engine) && fresh(handle)
      ensures this.id == id && view == Opened(id, snapshot, now)
    {
      this.id := id;
      var h := new TerminationHandle();
      handle := h;
      engine := new DirectionEngine(snapshot.plan, id.seedsOf(snapshot.namespace), id.direction, now, h);
      observedGeneration, pendingGeneration, transitions, directBytes := snapshot.generation, 0, 0, 0;
      evidence, wire := Ledger(0, 0, 0, 0), [];
      view := Opened(id, snapshot, now);
      OpenedOk(id, snapshot, now);
    }

    /** Mirror the engine's counters into the shared evidence. */
    method MirrorEngine()
      requires Valid()
      modifies this`evidence, this`view
      ensures Valid() && view == Mirrored(old(view))
    {
      var l := engine.ledger;
      MirrorKeeps(view);
      evidence := Ledger(l.accepted + directBytes, l.forwarded + directBytes, l.discarded, l.lossDiscarded);
      view := Mirrored(view);
    }

    /** Drain the engine into the inner writer, then flush the writer. */
    method FlushEngine(f: FlushIo) returns (r: Polled)
      requires Valid() && Clocked(f.io)
      modifies this`wire, this`view, engine
      ensures Valid() && (view, r) == Spec.FlushEngine(old(view), f)
    {
      FlushKeeps(view, f);
      var writes, outcome := engine.PollQueue(f.io);
      RecordsAppend(wire, view.sent, observedGeneration, Wire(writes));
      wire := wire + Wire(writes);
      view := Spec.FlushEngine(view, f).0;
      match outcome {
        case Drained => r := if f.reply.FlushPending? then NotReady else if f.reply.FlushFailed? then Failing else Done;
        case Blocked => r := NotReady;
        case Failed => r := Failing;
      }
    }

    /** A fresh engine for `snapshot` that has absorbed the counters of the current one. */
    method Successor(snapshot: Published, now: nat) returns (next: DirectionEngine)
      requires Valid()
      ensures fresh(next) && next.handle == handle && next.Valid()
      ensures var w := Swap(id, view, snapshot, now); next.config == w.c && next.history == w.t
    {
      next := new DirectionEngine(snapshot.plan, id.seedsOf(snapshot.namespace), id.direction, now, handle);
      var previous := Evidence(engine.ledger, engine.pipe.work, engine.loss.chunksEvaluated, engine.loss.chunksDropped,
                               engine.pipe.highWater);
      next.AbsorbEvidence(previous, engine.config, engine.history);
    }

    /** Install `next` as the engine of `generation` and mirror it; `w` is the resulting history. */
    method Install(next: DirectionEngine, generation: nat, ghost w: View)
      requires Records(wire, view.sent) && view.direct == directBytes
      requires next.Valid() && next.handle == handle && ViewOk(w) && w.c == next.config && w.t == next.history
      requires w.sent == view.sent && w.direct == view.direct && w.mirror == Totals(w)
      requires w.generation == generation && w.pending == 0 && w.transitions == transitions + 1
      modifies this
      ensures Valid() && engine == next && view == w
    {
      engine := next;
      observedGeneration, pendingGeneration, transitions := generation, 0, transitions + 1;
      var l := engine.ledger;
      evidence := Ledger(l.accepted + directBytes, l.forwarded + directBytes, l.discarded, l.lossDiscarded);
      view := w;
    }

    /** Replace the engine by one compiled from `snapshot`, sharing the termination slot. */
    method Transition(snapshot: Published, now: nat)
      requires Valid() && observedGeneration <= snapshot.generation
      modifies this
      ensures Valid() && fresh(engine) && view == Swap(id, old(view), snapshot, now)
    {
      SwapKeeps(id, view, snapshot, now);
      var next := Successor(snapshot, now);
      Install(next, snapshot.generation, Swap(id, view, snapshot, now));
    }

    /** Observe the live policy; owned bytes drain before the engine is replaced. */
    method UpdateLive(live: Live) returns (ready: bool)
      requires Valid() && Clocked(live.flush.io) && observedGeneration <= live.snapshot.generation
      modifies this, engine
      ensures Valid() && (engine == old(engine) || fresh(engine))
      ensures (view, ready) == Spec.UpdateLive(id, old(view), live)
    {
      if live.snapshot.generation == observedGeneration {
        return true;
      }
      pendingGeneration := live.snapshot.generation;
      view := view.(pending := live.snapshot.generation);
      if engine.pipe.queue != [] {
        var r := FlushEngine(live.flush);
        if r.NotReady? {
          return false;
        }
      }
      Transition(live.snapshot, live.now);
      ready := true;
    }

    /** Hand bytes to the faulted engine. */
    method TakeIn(bytes: seq<Byte>, clock: Clock) returns (n: nat)
      requires Valid() && engine.config.faults != []
      modifies this`view, engine, handle
      ensures Valid() && view == AcceptInto(old(view), bytes, clock)
      ensures n == Accept(old(view).c, old(view).t.s, bytes, clock).1
    {
      AcceptKeepsView(view, bytes, clock);
      n := engine.Accept(bytes, clock);
      view := AcceptInto(view, bytes, clock);
    }

    /** Accept through the faulted engine and drive what is already due. */
    method AcceptBytes(bytes: seq<Byte>, clock: Clock, after: FlushIo) returns (a: Answer)
      requires Valid() && engine.config.faults != [] && Clocked(after.io)
      modifies this, engine, handle
      ensures Valid() && engine == old(engine) && (view, a) == AcceptAndDrive(old(view), bytes, clock, after)
    {
      var n := TakeIn(bytes, clock);
      if n > 0 {
        var _ := FlushEngine(after);
        MirrorEngine();
        return Took(n);
      }
      a := if engine.termination.Some? && engine.pipe.queue == [] then Terminated else Again;
    }

    method WriteFaulted(bytes: seq<Byte>, before: FlushIo, clock: Clock, after: FlushIo) returns (a: Answer)
      requires Valid() && engine.config.faults != [] && Clocked(before.io) && Clocked(after.io)
      modifies this, engine, handle
      ensures Valid() && engine == old(engine) && (view, a) == WriteThrough(old(view), bytes, before, clock, after)
    {
      var r := FlushEngine(before);
      if r.Failing? {
        MirrorEngine();
        return Broken;
      }
      if bytes == [] {
        return Took(0);
      }
      if engine.termination.Some? && engine.pipe.queue == [] {
        return Terminated;
      }
      a := AcceptBytes(bytes, clock, after);
    }

    /** The empty plan's direct path: count the bytes, bypass the engine. */
    method WriteUnfaulted(bytes: seq<Byte>, direct: Reply) returns (a: Answer)
      requires Valid() && engine.config.faults == [] && (direct.Wrote? ==> direct.n <= |bytes|)
      modifies this
      ensures Valid() && engine == old(engine) && (view, a) == WritePast(old(view), bytes, direct)
    {
      match direct {
        case Pending => a := Again;
        case Failure => a := Broken;
        case Wrote(n) =>
          DirectKeeps(view, bytes[..n]);
          RecordsAppend(wire, view.sent, observedGeneration, bytes[..n]);
          wire := wire + bytes[..n];
          directBytes := directBytes + n;
          evidence := evidence.(accepted := evidence.accepted + n, forwarded := evidence.forwarded + n);
          view := WriteDirect(view, bytes[..n]);
          a := Took(n);
      }
    }

    method FlushAndMirror(f: FlushIo) returns (a: Answer)
      requires Valid() && Clocked(f.io)
      modifies this, engine
      ensures Valid() && engine == old(engine)
      ensures (view, a) == Spec.FlushAndMirror(old(view), f)
    {
      var r := FlushEngine(f);
      MirrorEngine();
      a := if r.NotReady? then Again else if r.Failing? then Broken else Flushed;
    }

    /** Reading drives the write queue; errors are left to the write path. */
    method PumpOnRead(pump: FlushIo) returns (a: Answer)
      requires Valid() && Clocked(pump.io)
      modifies this, engine
      ensures Valid() && engine == old(engine) && (view, a) == Pump(old(view), pump)
    {
      if engine.config.faults == [] {
        return Reading(false);
      }
      var _ := FlushAndMirror(pump);
      var ending := engine.termination.Some? && engine.termination.value.request.Graceful?;
      a := Reading(engine.pipe.queue == [] && ending);
    }

    /** One poll of any kind. */
    method Poll(p: Poll, ghost newest: nat) returns (a: Answer)
      requires Valid() && Honest(p) && observedGeneration <= newest <= Newest(newest, p)
      modifies this, engine, handle
      ensures Valid() && (engine == old(engine) || fresh(engine))
      ensures (view, a) == Step(id, old(view), p)
    {
      if p.PollRead? {
        a := PumpOnRead(p.pump);
        return;
      }
      var ready := UpdateLive(p.live);
      if !ready {
        return Again;
      }
      match p {
        case PollWrite(_, bytes, direct, before, clock, after) =>
          if engine.config.faults == [] {
            a := WriteUnfaulted(bytes, direct);
          } else {
            a := WriteFaulted(bytes, before, clock, after);
          }
        case PollFlush(_, flush) =>
          a := FlushAndMirror(flush);
        case PollShutdown(_, flush) =>
          a := FlushAndMirror(flush);
      }
    }
  }

  ghost function PlusAnswers(answers: seq<Answer>, r: (View, seq<Answer>)): (View, seq<Answer>) {
    (r.0, answers + r.1)
  }

  /** Playing one more poll of a timely script. */
  lemma {:induction false} PlayUnfolds(id: Identity, v: View, newest: nat, polls: seq<Poll>, answers: seq<Answer>)
    requires polls != [] && ViewOk(v) && v.generation <= newest && Timely(newest, polls)
    ensures var next := Newest(newest, polls[0]);
            Timely(next, polls[1..]) && newest <= next && Step(id, v, polls[0]).0.generation <= next &&
              Honest(polls[0])
    ensures var (w, a) := Step(id, v, polls[0]);
            PlusAnswers(answers, Play(id, v, polls)) == PlusAnswers(answers + [a], Play(id, w, polls[1..]))
  {
    StepKeeps(id, v, polls[0], newest);
    var (w, a) := Step(id, v, polls[0]);
    assert answers + ([a] + Play(id, w, polls[1..]).1) == (answers + [a]) + Play(id, w, polls[1..]).1;
  }

  /** One more poll of a script whose outcome is `all`. */
  method PollNext(stream: ChaosStream, polls: seq<Poll>, answers: seq<Answer>, ghost newest: nat,
                  ghost all: (View, seq<Answer>))
    returns (more: seq<Answer>)
    requires stream.Valid() && polls != [] && Timely(newest, polls) && stream.observedGeneration <= newest
    requires all == PlusAnswers(answers, Play(stream.id, stream.view, polls))
    modifies stream, stream.engine, stream.handle
    ensures stream.Valid() && (stream.engine == old(stream.engine) || fresh(stream.engine))
    ensures Timely(Newest(newest, polls[0]), polls[1..])
    ensures stream.observedGeneration <= Newest(newest, polls[0])
    ensures all == PlusAnswers(more, Play(stream.id, stream.view, polls[1..]))
  {
    PlayUnfolds(stream.id, stream.view, newest, polls, answers);
    var a := stream.Poll(polls[0], newest);
    more := answers + [a];
  }

  /** Poll a stream through a whole script. */
  method PollAll(stream: ChaosStream, polls: seq<Poll>) returns (answers: seq<Answer>)
    requires stream.Valid() && Timely(stream.observedGeneration, polls)
    modifies stream, stream.engine, stream.handle
    ensures stream.Valid() && (stream.view, answers) == Play(stream.id, old(stream.view), polls)
  {
    answers := [];
    ghost var all := Play(stream.id, stream.view, polls);
    var rest := polls;
    ghost var newest := stream.observedGeneration;
    assert [] + all.1 == all.1;
    while rest != []
      invariant stream.Valid() && (stream.engine == old(stream.engine) || fresh(stream.engine))
      invariant Timely(newest, rest) && stream.observedGeneration <= newest
      invariant all == PlusAnswers(answers, Play(stream.id, stream.view, rest))
      decreases |rest|
    {
      answers := PollNext(stream, rest, answers, newest, all);
      newest := Newest(newest, rest[0]);
      rest := rest[1..];
    }
    assert answers + [] == answers;
  }

  /** A whole session: open a stream on a snapshot and poll it through any script of writes, flushes
      and publications. The wire, the answers and the evidence are those of the specified run. */
  method Session(id: Identity, snapshot: Published, start: nat, polls: seq<Poll>)
    returns (wire: seq<Byte>, answers: seq<Answer>, evidence: Ledger)
    requires Timely(snapshot.generation, polls)
    ensures var (v, all) := Play(id, Opened(id, snapshot, start), polls);
            Records(wire, v.sent) && answers == all && evidence == v.mirror && ViewOk(v)
  {
    var stream := new ChaosStream(id, snapshot, start);
    answers := PollAll(stream, polls);
    wire, evidence := stream.wire, stream.evidence;
  }
}
