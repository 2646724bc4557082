/** Which plan a live-updated stream runs, and what its polls answer: at every moment its engine is one
    compiled from the snapshot of the generation it reports, and no byte is accepted under a stale plan. */
module ChaosStreamPlans {
  import opened Common
  import opened StreamPlan
  import opened StreamEngine
  import opened StreamLoss
  import opened StreamProofs
  import opened StreamRuns
  import opened ChaosStreamSpec

  // --- The plan in force ---

  /** How the current engine came to be: compiled from `snapshot` at time `at`, sharing the termination slot
      and taking over earlier counters, then run through `ops`. */
  datatype Origin = Origin(
    snapshot: Published, at: nat, handle: Option<TerminationInfo>, earlier: Evidence, base: Base, ops: seq<Op>)

  ghost function Begun(id: Identity, o: Origin): Trace {
    var s := FreshEngine(o.snapshot.plan, id.seedsOf(o.snapshot.namespace), o.at, o.handle);
    Trace(Absorb(s, o.earlier), [], [], 0, o.base)
  }

  /** The stream runs the snapshot's plan, with the seeds of the snapshot's namespace. */
  ghost predicate Adopted(id: Identity, v: View, o: Origin) {
    && v.generation == o.snapshot.generation && v.c.faults == o.snapshot.plan
    && v.c.seeds == id.seedsOf(o.snapshot.namespace) && v.c.direction == id.direction
    && v.c == ConfigOf(o.snapshot.plan, id.seedsOf(o.snapshot.namespace), id.direction, o.at)
    && v.t == Run(v.c, Begun(id, o), o.ops)
  }

  ghost predicate SameSource(o: Origin, q: Origin) { q.snapshot == o.snapshot && q.at == o.at }

  lemma {:induction false} RunAppend(c: Config, t: Trace, ops: seq<Op>, op: Op)
    ensures Run(c, t, ops + [op]) == StreamRuns.Exec(c, Run(c, t, ops), op)
    decreases |ops|
  {
    if ops == [] {
      assert [op][1..] == [] && [] + [op] == [op];
    } else {
      assert (ops + [op])[1..] == ops[1..] + [op];
      RunAppend(c, StreamRuns.Exec(c, t, ops[0]), ops[1..], op);
    }
  }

  lemma {:induction false} FlushAdopts(id: Identity, v: View, o: Origin, f: FlushIo) returns (q: Origin)
    requires Adopted(id, v, o)
    ensures Adopted(id, FlushEngine(v, f).0, q) && SameSource(o, q)
  {
    q := o.(ops := o.ops + [Flush(f.io)]);
    RunAppend(v.c, Begun(id, o), o.ops, Flush(f.io));
  }

  lemma {:induction false} AcceptAdopts(id: Identity, v: View, o: Origin, input: seq<Byte>, clock: Clock)
      returns (q: Origin)
    requires Adopted(id, v, o)
    ensures Adopted(id, AcceptInto(v, input, clock), q) && SameSource(o, q)
  {
    q := o.(ops := o.ops + [Send(input, clock)]);
    RunAppend(v.c, Begun(id, o), o.ops, Send(input, clock));
  }

  /** A transition adopts the snapshot it was given. */
  lemma {:induction false} SwapAdopts(id: Identity, v: View, snapshot: Published, now: nat) returns (q: Origin)
    ensures Adopted(id, Swap(id, v, snapshot, now), q) && q.snapshot == snapshot && q.at == now && q.ops == []
    ensures q.handle == v.t.s.handle && q.earlier == EvidenceOf(v.t.s)
  {
    var left := v.abandoned + v.t.s.pipe.buffered;
    var e := EvidenceOf(v.t.s);
    q := Origin(snapshot, now, v.t.s.handle, e, Base(e.ledger, e.chunksEvaluated, e.chunksDropped, left), []);
  }

  /** Observing the policy: once ready, the plan in force is that of the snapshot just loaded (a generation
      has one snapshot); while draining, it is still the old one, with the new generation marked pending. A
      transition is counted exactly when the generation changes. */
  lemma {:induction false} UpdateAdopts(id: Identity, v: View, o: Origin, live: Live) returns (q: Origin)
    requires Adopted(id, v, o)
    ensures var (w, ready) := UpdateLive(id, v, live);
            && Adopted(id, w, q)
            && (ready && live.snapshot.generation != v.generation ==>
                  q.snapshot == live.snapshot && q.at == live.now && w.pending == 0
                  && w.transitions == v.transitions + 1)
            && (ready && live.snapshot.generation == v.generation ==> SameSource(o, q) && w == v)
            && (!ready ==> SameSource(o, q) && w.pending == live.snapshot.generation
                           && w.transitions == v.transitions)
  {
    q := o;
    if live.snapshot.generation != v.generation {
      var marked := v.(pending := live.snapshot.generation);
      if v.t.s.pipe.queue == [] {
        q := SwapAdopts(id, marked, live.snapshot, live.now);
      } else {
        var (w, r) := FlushEngine(marked, live.flush);
        if r.NotReady? {
          q := FlushAdopts(id, marked, o, live.flush);
        } else {
          q := SwapAdopts(id, w, live.snapshot, live.now);
        }
      }
    }
  }

  lemma {:induction false} ActAdopts(id: Identity, v: View, o: Origin, p: Poll) returns (q: Origin)
    requires Adopted(id, v, o) && !p.PollRead?
    ensures Adopted(id, Act(v, p).0, q) && SameSource(o, q)
  {
    match p {
      case PollWrite(_, bytes, direct, before, clock, after) =>
        q := o;
        if v.c.faults != [] {
          q := WriteAdopts(id, v, o, bytes, before, clock, after);
        }
      case PollFlush(_, flush) => q := FlushAdopts(id, v, o, flush);
      case PollShutdown(_, flush) => q := FlushAdopts(id, v, o, flush);
    }
  }

  lemma {:induction false} WriteAdopts(id: Identity, v: View, o: Origin, bytes: seq<Byte>, before: FlushIo,
                                       clock: Clock, after: FlushIo)
      returns (q: Origin)
    requires Adopted(id, v, o)
    ensures Adopted(id, WriteThrough(v, bytes, before, clock, after).0, q) && SameSource(o, q)
  {
    q := FlushAdopts(id, v, o, before);
    var (f, r) := FlushEngine(v, before);
    if !r.Failing? && bytes != [] && !(f.t.s.termination.Some? && f.t.s.pipe.queue == []) {
      q := AcceptAdopts(id, f, q, bytes, clock);
      if StreamEngine.Accept(f.c, f.t.s, bytes, clock).1 > 0 {
        q := FlushAdopts(id, AcceptInto(f, bytes, clock), q, after);
      }
    }
  }

  /** One poll: whatever it answers, other than to come back later, it answers under the plan of the
      snapshot it loaded, given that one generation carries one snapshot. */
  lemma {:induction false} StepAdopts(id: Identity, v: View, o: Origin, p: Poll) returns (q: Origin)
    requires Adopted(id, v, o)
    ensures Adopted(id, Step(id, v, p).0, q)
    ensures SameSource(o, q) || (!p.PollRead? && q.snapshot == p.live.snapshot && q.at == p.live.now)
    ensures !p.PollRead? && (p.live.snapshot.generation == o.snapshot.generation ==> p.live.snapshot == o.snapshot) ==>
              Step(id, v, p).1.Again? || q.snapshot == p.live.snapshot
  {
    if p.PollRead? {
      q := o;
      if v.c.faults != [] {
        q := FlushAdopts(id, v, o, p.pump);
      }
    } else {
      q := UpdateAdopts(id, v, o, p.live);
      var (u, ready) := UpdateLive(id, v, p.live);
      if ready {
        q := ActAdopts(id, u, q, p);
      }
    }
  }

  /** The snapshot was loaded by a poll at that time. */
  ghost predicate Shown(polls: seq<Poll>, snapshot: Published, at: nat) {
    exists i :: 0 <= i < |polls| && !polls[i].PollRead? && polls[i].live.snapshot == snapshot
                && polls[i].live.now == at
  }

  lemma {:induction false} PlayAdopts(id: Identity, v: View, o: Origin, polls: seq<Poll>) returns (q: Origin)
    requires Adopted(id, v, o)
    ensures Adopted(id, Play(id, v, polls).0, q) && (SameSource(o, q) || Shown(polls, q.snapshot, q.at))
    decreases |polls|
  {
    if polls == [] {
      q := o;
    } else {
      var m := StepAdopts(id, v, o, polls[0]);
      q := PlayAdopts(id, Step(id, v, polls[0]).0, m, polls[1..]);
      if SameSource(m, q) && !SameSource(o, q) {
        assert Shown(polls, q.snapshot, q.at);
      } else if !SameSource(m, q) {
        var i :| 0 <= i < |polls[1..]| && !polls[1..][i].PollRead? && polls[1..][i].live.snapshot == q.snapshot
                 && polls[1..][i].live.now == q.at;
        assert polls[i + 1] == polls[1..][i];
      }
    }
  }

  /** The plan in force, over every run of a stream from its opening: its engine is one compiled from the
      snapshot that carries the reported generation, the opening one or one loaded by a poll, and run since. */
  lemma {:induction false} PlanInForce(id: Identity, snapshot: Published, now: nat, polls: seq<Poll>)
      returns (q: Origin)
    ensures Adopted(id, Play(id, Opened(id, snapshot, now), polls).0, q)
    ensures (q.snapshot == snapshot && q.at == now) || Shown(polls, q.snapshot, q.at)
  {
    var none := Evidence(Ledger(0, 0, 0, 0), Work(0, 0, 0, 0), 0, 0, 0);
    var o := Origin(snapshot, now, None, none, NO_BASE, []);
    assert Adopted(id, Opened(id, snapshot, now), o);
    q := PlayAdopts(id, Opened(id, snapshot, now), o, polls);
  }

  // --- What polls answer ---

  lemma {:induction false} FlushTotals(v: View, f: FlushIo)
    ensures Totals(FlushEngine(v, f).0).accepted == Totals(v).accepted
  {
    DrainLedger(v.t.s, f.io);
  }

  lemma {:induction false} UpdateTotals(id: Identity, v: View, live: Live)
    ensures Totals(UpdateLive(id, v, live).0).accepted == Totals(v).accepted
    ensures UpdateLive(id, v, live).1 && v.mirror == Totals(v) ==>
              UpdateLive(id, v, live).0.mirror == Totals(UpdateLive(id, v, live).0)
  {
    FlushTotals(v.(pending := live.snapshot.generation), live.flush);
  }

  lemma {:induction false} AcceptTotals(v: View, bytes: seq<Byte>, clock: Clock)
    requires ViewOk(v)
    ensures Totals(AcceptInto(v, bytes, clock)).accepted
         == Totals(v).accepted + StreamEngine.Accept(v.c, v.t.s, bytes, clock).1
  {
    AcceptKeeps(v.c, v.t, bytes, clock);
  }

  /** What a poll's answer promises of the stream before and after it. */
  ghost predicate AnswerOk(v: View, a: Answer, w: View) {
    && Totals(w).accepted == Totals(v).accepted + (if a.Took? then a.n else 0)
    && (a.Terminated? ==> w.t.s.termination.Some? && w.t.s.pipe.queue == [])
    && (a.Flushed? ==> w.t.s.pipe.queue == [] && w.mirror == Totals(w))
    && (a.Took? && a.n > 0 && v.mirror == Totals(v) ==> w.mirror == Totals(w))
    && (a.Reading? ==> (a.ends <==> Ending(w)))
  }

  /** An idle reader may be told of the end: a graceful termination has nothing left to drain. */
  ghost predicate Ending(v: View) {
    && v.c.faults != [] && v.t.s.pipe.queue == []
    && v.t.s.termination.Some? && v.t.s.termination.value.request.Graceful?
  }

  lemma {:induction false} WriteAnswers(v: View, bytes: seq<Byte>, before: FlushIo, clock: Clock, after: FlushIo)
    requires ViewOk(v) && v.c.faults != [] && Clocked(before.io) && Clocked(after.io)
    ensures var (w, a) := WriteThrough(v, bytes, before, clock, after); AnswerOk(v, a, w)
  {
    var f := FlushEngine(v, before).0;
    FlushKeeps(v, before);
    FlushTotals(v, before);
    DriveAnswers(f, bytes, clock, after);
  }

  lemma {:induction false} DriveAnswers(v: View, bytes: seq<Byte>, clock: Clock, after: FlushIo)
    requires ViewOk(v)
    ensures var (w, a) := AcceptAndDrive(v, bytes, clock, after);
            && Totals(w).accepted == Totals(v).accepted + (if a.Took? then a.n else 0)
            && (a.Terminated? ==> w.t.s.termination.Some? && w.t.s.pipe.queue == [])
            && !a.Flushed? && (a.Took? ==> w.mirror == Totals(w))
  {
    AcceptTotals(v, bytes, clock);
    FlushTotals(AcceptInto(v, bytes, clock), after);
  }

  lemma {:induction false} ActAnswers(v: View, p: Poll)
    requires ViewOk(v) && Honest(p) && !p.PollRead?
    ensures AnswerOk(v, Act(v, p).1, Act(v, p).0)
  {
    match p {
      case PollWrite(_, bytes, direct, before, clock, after) =>
        if v.c.faults != [] {
          WriteAnswers(v, bytes, before, clock, after);
        }
      case PollFlush(_, flush) => FlushAnswers(v, flush);
      case PollShutdown(_, flush) => FlushAnswers(v, flush);
    }
  }

  lemma {:induction false} FlushAnswers(v: View, f: FlushIo)
    requires ViewOk(v) && Clocked(f.io)
    ensures AnswerOk(v, FlushAndMirror(v, f).1, FlushAndMirror(v, f).0)
  {
    FlushKeeps(v, f);
    FlushTotals(v, f);
  }

  /** Every poll counts as accepted exactly the bytes it answers for; it reports a termination or a flush
      only with an empty queue; an idle read ends exactly at a drained graceful termination; and evidence read
      after a write or a flush is up to date. */
  lemma {:induction false} StepAnswers(id: Identity, v: View, p: Poll)
    requires ViewOk(v) && Honest(p) && (!p.PollRead? ==> v.generation <= p.live.snapshot.generation)
    ensures AnswerOk(v, Step(id, v, p).1, Step(id, v, p).0)
  {
    if p.PollRead? {
      FlushTotals(v, p.pump);
    } else {
      UpdateTotals(id, v, p.live);
      UpdateKeeps(id, v, p.live);
      var (u, ready) := UpdateLive(id, v, p.live);
      if ready {
        ActAnswers(u, p);
      }
    }
  }

  // --- What a write owes the writer ---

  /** The bytes to be delivered of n bytes just taken, of which an engine has classified the last of its
      stream: all of them without a plan, none in a blackhole, and the surviving chunks otherwise. */
  ghost function Kept(c: Config, classified: nat, bytes: seq<Byte>, discard: nat): seq<Byte> {
    if c.faults == [] then bytes
    else if Discarding(c, discard) then []
    else Survivors(c, Minus(classified, |bytes|), bytes)
  }

  lemma {:induction false} AcceptOwes(v: View, input: seq<Byte>, clock: Clock)
    requires ViewOk(v) && v.c.faults != []
    ensures var n := StreamEngine.Accept(v.c, v.t.s, input, clock).1; var w := AcceptInto(v, input, clock);
            n <= |input| &&
            w.preserved == v.preserved + Tag(v.generation, Kept(w.c, |w.t.classified|, input[..n], clock.discard))
  {
    var n := StreamEngine.Accept(v.c, v.t.s, input, clock).1;
    AcceptKeeps(v.c, v.t, input, clock);
    AcceptDelivers(v.c, v.t, input, clock);
    DeliveredGrows(v.c, v.t, input, clock);
  }

  lemma {:induction false} DeliveredGrows(c: Config, t: Trace, input: seq<Byte>, clock: Clock)
    requires Inv(c, t) && Inv(c, Accepted(c, t, input, clock))
    requires StreamEngine.Accept(c, t.s, input, clock).1 <= |input|
    ensures var n := StreamEngine.Accept(c, t.s, input, clock).1; var u := Accepted(c, t, input, clock);
            Delivered(u) == Delivered(t) +
              if Discarding(c, clock.discard) then [] else Survivors(c, |t.classified|, input[..n])
  {
    if !Discarding(c, clock.discard) {
      SurvivorsConcat(c, 0, t.classified, input[..StreamEngine.Accept(c, t.s, input, clock).1]);
    }
  }

  lemma {:induction false} WriteOwesThrough(v: View, bytes: seq<Byte>, before: FlushIo, clock: Clock, after: FlushIo)
    requires ViewOk(v) && v.c.faults != [] && Clocked(before.io) && Clocked(after.io)
    ensures var (w, a) := WriteThrough(v, bytes, before, clock, after);
            && (a.Took? ==> a.n <= |bytes|)
            && w.preserved == v.preserved +
                 if a.Took? && a.n > 0
                 then Tag(v.generation, Kept(w.c, |w.t.classified|, bytes[..a.n], clock.discard)) else []
  {
    var f := FlushEngine(v, before).0;
    FlushKeeps(v, before);
    AcceptOwes(f, bytes, clock);
    var n := StreamEngine.Accept(f.c, f.t.s, bytes, clock).1;
    if n == 0 {
      NothingKept(f, bytes, clock);
    }
  }

  lemma {:induction false} NothingKept(v: View, input: seq<Byte>, clock: Clock)
    requires ViewOk(v) && v.c.faults != [] && StreamEngine.Accept(v.c, v.t.s, input, clock).1 == 0
    ensures AcceptInto(v, input, clock).preserved == v.preserved
  {
    AcceptOwes(v, input, clock);
    assert input[..0] == [];
  }

  /** What a poll that ends in w with this answer adds to what is owed. */
  ghost function Owing(w: View, p: Poll, a: Answer): seq<Tagged> {
    if p.PollWrite? && a.Took? && 0 < a.n <= |p.bytes|
    then Tag(w.generation, Kept(w.c, |w.t.classified|, p.bytes[..a.n], p.clock.discard)) else []
  }

  lemma {:induction false} ActOwes(v: View, p: Poll)
    requires ViewOk(v) && Honest(p) && !p.PollRead?
    ensures var (w, a) := Act(v, p);
            w.preserved == v.preserved + Owing(w, p, a) && (p.PollWrite? && a.Took? ==> a.n <= |p.bytes|)
  {
    if p.PollWrite? && v.c.faults != [] {
      WriteOwesThrough(v, p.bytes, p.before, p.clock, p.after);
      WriteThroughKeeps(v, p.bytes, p.before, p.clock, p.after);
    }
  }

  lemma {:induction false} UpdateOwes(id: Identity, v: View, live: Live)
    ensures UpdateLive(id, v, live).0.preserved == v.preserved
  {
  }

  /** A write adds to what is owed to the writer exactly what the plan keeps of the bytes it answers for,
      under the generation in force; no other poll adds anything. */
  lemma {:induction false} StepOwes(id: Identity, v: View, p: Poll)
    requires ViewOk(v) && Honest(p) && (!p.PollRead? ==> v.generation <= p.live.snapshot.generation)
    ensures var (w, a) := Step(id, v, p);
            w.preserved == v.preserved + Owing(w, p, a) && (p.PollWrite? && a.Took? ==> a.n <= |p.bytes|)
  {
    if !p.PollRead? {
      UpdateOwes(id, v, p.live);
      UpdateKeeps(id, v, p.live);
      var (u, ready) := UpdateLive(id, v, p.live);
      if ready {
        ActOwes(u, p);
      }
    }
  }
}
