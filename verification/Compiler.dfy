/** The Scenario V2 compiler (compiler.rs, source.rs): phases and one finite repeat block expand into a
    flat tape of events at absolute offsets. */
module Compiler {
  import opened Common
  import opened Schedule
  import StreamPlan
  import DatagramPlan

  const SCHEMA_VERSION: nat := 2
  const COMPILER_VERSION: nat := 1
  const MAX_PHASES: nat := 256
  const MAX_PHASE_ACTIONS: nat := 64
  const MAX_REPEAT_COUNT: nat := 64
  const MAX_COMPILED_EVENTS: nat := 1024
  const MAX_NAME_BYTES: nat := 128

  type u64 = n: nat | n <= U64_MAX

  /** Names are byte strings. */
  datatype Phase = Phase(name: Option<string>, duration: u64, actions: seq<Action>)

  datatype Block = Block(count: nat, phases: seq<Phase>)

  datatype Source = Source(
    version: nat, seed: nat, executionKey: nat, isolation: Isolation, cleanup: Cleanup, phases: seq<Phase>,
      repeat: Option<Block>)

  datatype ScheduleError =
    | UnsupportedVersion
    | TooManyPhases
    | RepeatOutOfRange
    | TooManyRepeatPhases
    | EmptyPhase
    | TooManyPhaseActions
    | InvalidPhaseName
    | EmptySchedule
    | TooManyCompiledEvents(count: nat)
    | OffsetOverflow
    | InvalidStreamPlan
    | InvalidDatagramPlan

  datatype Result = Ok(compiled: Compiled) | Err(error: ScheduleError)

  // --- What a schedule must satisfy ---

  predicate PhaseOk(p: Phase) {
    && 1 <= |p.actions| <= MAX_PHASE_ACTIONS
    && (p.name.Some? ==> 1 <= |p.name.value| <= MAX_NAME_BYTES)
  }

  predicate AllPhasesOk(phases: seq<Phase>) {
    forall i :: 0 <= i < |phases| ==> PhaseOk(phases[i])
  }

  predicate StructureOk(s: Source) {
    && s.version == SCHEMA_VERSION && |s.phases| <= MAX_PHASES && AllPhasesOk(s.phases)
    && (match s.repeat
        case None => s.phases != []
        case Some(b) => 1 <= b.count <= MAX_REPEAT_COUNT && 1 <= |b.phases| <= MAX_PHASES && AllPhasesOk(b.phases))
  }

  predicate ActionOk(a: Action) {
    match a
    case SetPlan(_, _, faults) => StreamPlan.ValidPlan(faults)
    case SetDatagramPlan(_, _, stages) => DatagramPlan.ValidPlan(stages)
    case RemoveFault(_, _, id) => 1 <= |id| <= MAX_NAME_BYTES
    case RemoveDatagramFault(_, _, id) => 1 <= |id| <= MAX_NAME_BYTES
  }

  predicate ActionsOk(p: Phase) {
    forall i :: 0 <= i < |p.actions| ==> ActionOk(p.actions[i])
  }

  predicate AllActionsOk(phases: seq<Phase>) {
    forall i :: 0 <= i < |phases| ==> ActionsOk(phases[i])
  }

  /** What a phase must satisfy to be emitted. */
  predicate Emittable(p: Phase) {
    |p.actions| <= MAX_PHASE_ACTIONS && ActionsOk(p)
  }

  predicate AllEmittable(phases: seq<Phase>) {
    forall i :: 0 <= i < |phases| ==> Emittable(phases[i])
  }

  // --- Expansion ---

  function Times(n: nat, phases: seq<Phase>): seq<Phase> {
    if n == 0 then [] else Times(n - 1, phases) + phases
  }

  /** Every phase in playing order. */
  function Flattened(s: Source): seq<Phase> {
    s.phases + if s.repeat.Some? then Times(s.repeat.value.count, s.repeat.value.phases) else []
  }

  function ActionCount(phases: seq<Phase>): nat {
    if phases == [] then 0 else ActionCount(phases[..|phases| - 1]) + |phases[|phases| - 1].actions|
  }

  function Duration(phases: seq<Phase>): nat {
    if phases == [] then 0 else Duration(phases[..|phases| - 1]) + phases[|phases| - 1].duration
  }

  function AllActions(phases: seq<Phase>): seq<Action> {
    if phases == [] then [] else AllActions(phases[..|phases| - 1]) + phases[|phases| - 1].actions
  }

  /** Exactly the schedules that compile. */
  predicate Compilable(s: Source) {
    && StructureOk(s)
    && AllActionsOk(s.phases) && (s.repeat.Some? ==> AllActionsOk(s.repeat.value.phases))
    && ActionCount(Flattened(s)) <= MAX_COMPILED_EVENTS
    && Duration(Flattened(s)) <= U64_MAX
  }

  /** A phase at its place in the tape. */
  datatype Placed = Placed(id: PhaseId, phase: Phase)

  /** Placed phases in playing order. */
  datatype Places = Nil | Snoc(init: Places, last: Placed)

  function Append(a: Places, b: Places): Places {
    match b
    case Nil => a
    case Snoc(init, last) => Snoc(Append(a, init), last)
  }

  function TopPlaces(phases: seq<Phase>): Places {
    if phases == [] then Nil
    else
      var n := |phases| - 1;
      Snoc(TopPlaces(phases[..n]), Placed(Top(n), phases[n]))
  }

  /** One repeat iteration, counted from one. */
  function Iteration(k: nat, phases: seq<Phase>): Places {
    if phases == [] then Nil
    else
      var n := |phases| - 1;
      Snoc(Iteration(k, phases[..n]), Placed(Repeat(k, n), phases[n]))
  }

  function Iterations(n: nat, phases: seq<Phase>): Places {
    if n == 0 then Nil else Append(Iterations(n - 1, phases), Iteration(n, phases))
  }

  function PlacesOf(s: Source): Places {
    if s.repeat.Some? then Append(TopPlaces(s.phases), Iterations(s.repeat.value.count, s.repeat.value.phases))
    else TopPlaces(s.phases)
  }

  function PhasesOf(places: Places): seq<Phase> {
    match places
    case Nil => []
    case Snoc(init, last) => PhasesOf(init) + [last.phase]
  }

  /** How many events the placed phases hold. */
  function Width(places: Places): nat {
    match places
    case Nil => 0
    case Snoc(init, last) => Width(init) + |last.phase.actions|
  }

  /** How long they take. */
  function Span(places: Places): nat {
    match places
    case Nil => 0
    case Snoc(init, last) => Span(init) + last.phase.duration
  }

  /** The first k events of one phase, from the given index and offset on. */
  function PhaseEvents(p: Placed, k: nat, index: nat, offset: nat): (r: seq<Event>)
    requires k <= |p.phase.actions|
    ensures |r| == k
  {
    if k == 0 then []
    else PhaseEvents(p, k - 1, index, offset) + [Event(index + k - 1, p.id, offset, p.phase.actions[k - 1])]
  }

  /** The events of consecutive phases, the first starting at `index` and `offset`. */
  function Tape(places: Places, index: nat, offset: nat): (r: seq<Event>)
    ensures |r| == Width(places)
  {
    match places
    case Nil => []
    case Snoc(init, last) =>
      Tape(init, index, offset) + PhaseEvents(last, |last.phase.actions|, index + Width(init), offset + Span(init))
  }

  function Output(s: Source): Compiled {
    Compiled(COMPILER_VERSION, s.seed, s.executionKey, s.isolation, s.cleanup, Tape(PlacesOf(s), 0, 0),
             Duration(Flattened(s)))
  }

  // --- Placed phases and flattened phases ---

  lemma {:induction false} SumsAgree(places: Places)
    ensures Width(places) == ActionCount(PhasesOf(places)) && Span(places) == Duration(PhasesOf(places))
  {
    if places.Snoc? {
      SumsAgree(places.init);
      assert PhasesOf(places)[..|PhasesOf(places.init)|] == PhasesOf(places.init);
    }
  }

  lemma {:induction false} AppendSums(a: Places, b: Places)
    ensures PhasesOf(Append(a, b)) == PhasesOf(a) + PhasesOf(b)
    ensures Width(Append(a, b)) == Width(a) + Width(b) && Span(Append(a, b)) == Span(a) + Span(b)
  {
    if b.Snoc? {
      AppendSums(a, b.init);
    }
  }

  lemma {:induction false} AppendAssoc(a: Places, b: Places, c: Places)
    ensures Append(Append(a, b), c) == Append(a, Append(b, c))
  {
    if c.Snoc? {
      AppendAssoc(a, b, c.init);
    }
  }

  lemma {:induction false} TopPhases(phases: seq<Phase>)
    ensures PhasesOf(TopPlaces(phases)) == phases
  {
    if phases != [] {
      TopPhases(phases[..|phases| - 1]);
    }
  }

  lemma {:induction false} IterationPhases(k: nat, phases: seq<Phase>)
    ensures PhasesOf(Iteration(k, phases)) == phases
    ensures Width(Iteration(k, phases)) == ActionCount(phases) && Span(Iteration(k, phases)) == Duration(phases)
  {
    if phases != [] {
      IterationPhases(k, phases[..|phases| - 1]);
    }
  }

  lemma {:induction false} IterationsFlatten(n: nat, phases: seq<Phase>)
    ensures PhasesOf(Iterations(n, phases)) == Times(n, phases)
  {
    if n > 0 {
      IterationsFlatten(n - 1, phases);
      AppendSums(Iterations(n - 1, phases), Iteration(n, phases));
      IterationPhases(n, phases);
    }
  }

  /** The placed phases are the flattened ones, in order. */
  lemma {:induction false} PlacesFlatten(s: Source)
    ensures PhasesOf(PlacesOf(s)) == Flattened(s)
    ensures Width(PlacesOf(s)) == ActionCount(Flattened(s)) && Span(PlacesOf(s)) == Duration(Flattened(s))
  {
    TopPhases(s.phases);
    if s.repeat.Some? {
      IterationsFlatten(s.repeat.value.count, s.repeat.value.phases);
      AppendSums(TopPlaces(s.phases), Iterations(s.repeat.value.count, s.repeat.value.phases));
    } else {
      assert Flattened(s) == s.phases;
    }
    SumsAgree(PlacesOf(s));
  }

  // --- The tape ---

  lemma {:induction false} PhaseEventAt(p: Placed, k: nat, index: nat, offset: nat, i: nat)
    requires i < k <= |p.phase.actions|
    ensures PhaseEvents(p, k, index, offset)[i] == Event(index + i, p.id, offset, p.phase.actions[i])
  {
    if i < k - 1 {
      PhaseEventAt(p, k - 1, index, offset, i);
    }
  }

  /** Where an event comes from: its phase starts after the k phases before it, at the sum of their
      durations, and the event carries one of its actions, in order. */
  ghost predicate Belongs(phases: seq<Phase>, k: nat, offset: nat, i: nat, e: Event) {
    && k < |phases| && e.offset == offset + Duration(phases[..k])
    && ActionCount(phases[..k]) <= i < ActionCount(phases[..k]) + |phases[k].actions|
    && e.action == phases[k].actions[i - ActionCount(phases[..k])]
  }

  /** Event i has index i, and belongs where it should. */
  lemma {:induction false} TapeEvent(places: Places, index: nat, offset: nat, i: nat) returns (k: nat)
    requires i < |Tape(places, index, offset)|
    ensures Tape(places, index, offset)[i].index == index + i
    ensures Belongs(PhasesOf(places), k, offset, i, Tape(places, index, offset)[i])
  {
    var n := |PhasesOf(places.init)|;
    assert PhasesOf(places)[..n] == PhasesOf(places.init);
    SumsAgree(places.init);
    if i < Width(places.init) {
      k := TapeEvent(places.init, index, offset, i);
      assert PhasesOf(places)[..k] == PhasesOf(places.init)[..k];
    } else {
      k := n;
      LastEvent(places, index, offset, i - Width(places.init));
    }
  }

  /** The m-th event of the last phase. */
  lemma {:induction false} LastEvent(places: Places, index: nat, offset: nat, m: nat)
    requires places.Snoc? && m < |places.last.phase.actions|
    ensures Tape(places, index, offset)[Width(places.init) + m]
         == Event(index + Width(places.init) + m, places.last.id, offset + Span(places.init),
                  places.last.phase.actions[m])
  {
    var init, last := places.init, places.last;
    TapeSnoc(init, last, index, offset, index + Width(init), offset + Span(init));
    PhaseEventAt(last, |last.phase.actions|, index + Width(init), offset + Span(init), m);
  }

  ghost function Actions(tape: seq<Event>): (r: seq<Action>)
  {
    if tape == [] then [] else Actions(tape[..|tape| - 1]) + [tape[|tape| - 1].action]
  }

  lemma {:induction false} PhaseActions(tape: seq<Event>, p: Placed, k: nat, index: nat, offset: nat)
    requires k <= |p.phase.actions|
    ensures Actions(tape + PhaseEvents(p, k, index, offset)) == Actions(tape) + p.phase.actions[..k]
  {
    var all := tape + PhaseEvents(p, k, index, offset);
    if k == 0 {
      assert all == tape && p.phase.actions[..0] == [];
    } else {
      PhaseActions(tape, p, k - 1, index, offset);
      assert all[..|all| - 1] == tape + PhaseEvents(p, k - 1, index, offset);
      assert p.phase.actions[..k] == p.phase.actions[..k - 1] + [p.phase.actions[k - 1]];
    }
  }

  /** The tape plays exactly the actions of the phases, in order. */
  lemma {:induction false} TapeActions(places: Places, index: nat, offset: nat)
    ensures Actions(Tape(places, index, offset)) == AllActions(PhasesOf(places))
  {
    if places.Snoc? {
      var p := places.last;
      TapeActions(places.init, index, offset);
      PhaseActions(Tape(places.init, index, offset), p, |p.phase.actions|, index + Width(places.init),
                   offset + Span(places.init));
      assert p.phase.actions[..|p.phase.actions|] == p.phase.actions;
      assert PhasesOf(places)[..|PhasesOf(places.init)|] == PhasesOf(places.init);
    }
  }

  /** Offsets never decrease, and stay within the total duration. */
  lemma {:induction false} TapeSorted(places: Places, index: nat, offset: nat, i: nat, k: nat)
    requires i <= k < |Tape(places, index, offset)|
    ensures var t := Tape(places, index, offset); offset <= t[i].offset <= t[k].offset <= offset + Span(places)
  {
    var (init, p, w) := (places.init, places.last, Width(places.init));
    if k < w {
      TapeSorted(init, index, offset, i, k);
    } else {
      PhaseEventAt(p, |p.phase.actions|, index + w, offset + Span(init), k - w);
      if i < w {
        TapeSorted(init, index, offset, i, i);
      } else {
        PhaseEventAt(p, |p.phase.actions|, index + w, offset + Span(init), i - w);
      }
    }
  }

  /** Concatenation, regrouped. */
  lemma {:induction false} Regroup<T>(x: seq<T>, y: seq<T>, z: seq<T>, xy: seq<T>, yz: seq<T>)
    requires xy == x + y && yz == y + z
    ensures xy + z == x + yz
  {
  }

  lemma {:induction false} TapeSnoc(init: Places, last: Placed, index: nat, offset: nat, i: nat, o: nat)
    requires i == index + Width(init) && o == offset + Span(init)
    ensures Tape(Snoc(init, last), index, offset)
         == Tape(init, index, offset) + PhaseEvents(last, |last.phase.actions|, i, o)
  {
  }

  lemma {:induction false} TapeAppend(a: Places, b: Places, index: nat, offset: nat)
    ensures Tape(Append(a, b), index, offset) == Tape(a, index, offset) + Tape(b, index + Width(a), offset + Span(a))
  {
    if b.Snoc? {
      TapeAppend(a, b.init, index, offset);
      TapeAppendStep(a, b.init, b.last, index, offset, index + Width(a), offset + Span(a));
    }
  }

  lemma {:induction false} TapeAppendStep(a: Places, init: Places, last: Placed, index: nat, offset: nat, i: nat,
                                          o: nat)
    requires i == index + Width(a) && o == offset + Span(a)
    requires Tape(Append(a, init), index, offset) == Tape(a, index, offset) + Tape(init, i, o)
    ensures Tape(Snoc(Append(a, init), last), index, offset) == Tape(a, index, offset) + Tape(Snoc(init, last), i, o)
  {
    AppendSums(a, init);
    var i', o' := i + Width(init), o + Span(init);
    TapeSnoc(Append(a, init), last, index, offset, i', o');
    TapeSnoc(init, last, i, o, i', o');
    Regroup(Tape(a, index, offset), Tape(init, i, o), PhaseEvents(last, |last.phase.actions|, i', o'),
            Tape(Append(a, init), index, offset), Tape(Snoc(init, last), i, o));
  }

  // --- Repeats ---

  /** The same event one iteration later. */
  function NextIteration(e: Event, width: nat, span: nat): Event {
    var phase := if e.phase.Repeat? then Repeat(e.phase.iteration + 1, e.phase.index) else e.phase;
    Event(e.index + width, phase, e.offset + span, e.action)
  }

  /** Each event of z is the one of y one iteration later. */
  ghost predicate NextOf(y: seq<Event>, z: seq<Event>, width: nat, span: nat) {
    |y| == |z| && (forall m :: 0 <= m < |y| ==> z[m] == NextIteration(y[m], width, span))
  }

  lemma {:induction false} PhaseShift(k: nat, i: nat, phase: Phase, n: nat, index: nat, offset: nat, width: nat,
                                      span: nat)
    requires n <= |phase.actions|
    ensures NextOf(PhaseEvents(Placed(Repeat(k, i), phase), n, index, offset),
                   PhaseEvents(Placed(Repeat(k + 1, i), phase), n, index + width, offset + span), width, span)
  {
    if n > 0 {
      PhaseShift(k, i, phase, n - 1, index, offset, width, span);
    }
  }

  lemma {:induction false} NextOfConcat(x: seq<Event>, y: seq<Event>, x': seq<Event>, y': seq<Event>, width: nat,
                                        span: nat)
    requires NextOf(x, x', width, span) && NextOf(y, y', width, span)
    ensures NextOf(x + y, x' + y', width, span)
  {
  }

  /** Two consecutive iterations, the second started `width` events and `span` later. */
  lemma {:induction false} IterationShift(k: nat, phases: seq<Phase>, index: nat, offset: nat, width: nat, span: nat)
    ensures NextOf(Tape(Iteration(k, phases), index, offset),
                   Tape(Iteration(k + 1, phases), index + width, offset + span), width, span)
    decreases |phases|
  {
    if phases != [] {
      var (before, phase, n) := (phases[..|phases| - 1], phases[|phases| - 1], |phases| - 1);
      IterationShift(k, before, index, offset, width, span);
      IterationPhases(k, before);
      IterationPhases(k + 1, before);
      var i, o := index + ActionCount(before), offset + Duration(before);
      PhaseShift(k, n, phase, |phase.actions|, i, o, width, span);
      NextOfConcat(Tape(Iteration(k, before), index, offset),
                   PhaseEvents(Placed(Repeat(k, n), phase), |phase.actions|, i, o),
                   Tape(Iteration(k + 1, before), index + width, offset + span),
                   PhaseEvents(Placed(Repeat(k + 1, n), phase), |phase.actions|, i + width, o + span), width, span);
    }
  }

  /** Everything `width` events apart is one iteration apart. */
  ghost predicate Periodic(t: seq<Event>, width: nat, span: nat) {
    forall p, q :: 0 <= p < |t| && 0 <= q < |t| && q == p + width ==> t[q] == NextIteration(t[p], width, span)
  }

  lemma {:induction false} PeriodicAppend(x: seq<Event>, y: seq<Event>, z: seq<Event>, width: nat, span: nat)
    requires Periodic(x + y, width, span) && |y| == width && NextOf(y, z, width, span)
    ensures Periodic((x + y) + z, width, span)
  {
    var t := (x + y) + z;
    forall p, q | 0 <= p < |t| && 0 <= q < |t| && q == p + width ensures t[q] == NextIteration(t[p], width, span) {
      if q < |x + y| {
        assert t[q] == (x + y)[q] && t[p] == (x + y)[p];
      } else {
        assert t[q] == z[p - |x|] && t[p] == y[p - |x|];
      }
    }
  }

  lemma {:induction false} IterationsSums(n: nat, phases: seq<Phase>)
    ensures Width(Iterations(n + 1, phases)) == Width(Iterations(n, phases)) + ActionCount(phases)
    ensures Span(Iterations(n + 1, phases)) == Span(Iterations(n, phases)) + Duration(phases)
  {
    IterationPhases(n + 1, phases);
    AppendSums(Iterations(n, phases), Iteration(n + 1, phases));
  }

  /** One more iteration starts where the earlier ones end. */
  lemma {:induction false} IterationsUnfold(n: nat, phases: seq<Phase>, index: nat, offset: nat, i: nat, o: nat)
    requires i == index + Width(Iterations(n, phases)) && o == offset + Span(Iterations(n, phases))
    ensures Tape(Iterations(n + 1, phases), index, offset)
         == Tape(Iterations(n, phases), index, offset) + Tape(Iteration(n + 1, phases), i, o)
    ensures |Tape(Iteration(n + 1, phases), i, o)| == ActionCount(phases)
  {
    IterationPhases(n + 1, phases);
    TapeAppend(Iterations(n, phases), Iteration(n + 1, phases), index, offset);
  }

  /** Iterations n + 1 and n + 2 as the tape's tail. */
  lemma {:induction false} LastIterations(n: nat, phases: seq<Phase>, index: nat, offset: nat)
    returns (x: seq<Event>, y: seq<Event>, z: seq<Event>)
    ensures Tape(Iterations(n + 1, phases), index, offset) == x + y &&
            Tape(Iterations(n + 2, phases), index, offset) == (x + y) + z
    ensures |y| == ActionCount(phases) && NextOf(y, z, ActionCount(phases), Duration(phases))
  {
    var i, o := index + Width(Iterations(n, phases)), offset + Span(Iterations(n, phases));
    var j, u := i + ActionCount(phases), o + Duration(phases);
    IterationsSums(n, phases);
    IterationsUnfold(n, phases, index, offset, i, o);
    IterationsUnfold(n + 1, phases, index, offset, j, u);
    IterationShift(n + 1, phases, i, o, ActionCount(phases), Duration(phases));
    x, y, z := Tape(Iterations(n, phases), index, offset), Tape(Iteration(n + 1, phases), i, o),
      Tape(Iteration(n + 2, phases), j, u);
  }

  /** Every repeat iteration is the one before it, shifted by the block's duration and event count. */
  lemma {:induction false} RepeatShift(n: nat, phases: seq<Phase>, index: nat, offset: nat)
    ensures Periodic(Tape(Iterations(n, phases), index, offset), ActionCount(phases), Duration(phases))
    decreases n
  {
    if n == 1 {
      IterationsUnfold(0, phases, index, offset, index, offset);
    } else if n > 1 {
      RepeatShift(n - 1, phases, index, offset);
      var x, y, z := LastIterations(n - 2, phases, index, offset);
      PeriodicAppend(x, y, z, ActionCount(phases), Duration(phases));
    }
  }

  // --- The compiler itself ---

  /** Check one list of phases. */
  method CheckPhases(phases: seq<Phase>) returns (r: Option<ScheduleError>)
    ensures r.None? <==> AllPhasesOk(phases)
    ensures r.Some? ==> r.value.EmptyPhase? || r.value.TooManyPhaseActions? || r.value.InvalidPhaseName?
  {
    for i := 0 to |phases|
      invariant AllPhasesOk(phases[..i])
    {
      var p := phases[i];
      if p.actions == [] {
        return Some(EmptyPhase);
      }
      if |p.actions| > MAX_PHASE_ACTIONS {
        return Some(TooManyPhaseActions);
      }
      if p.name.Some? && (p.name.value == "" || |p.name.value| > MAX_NAME_BYTES) {
        return Some(InvalidPhaseName);
      }
    }
    r := None;
  }

  /** Reject structural errors before expansion. */
  method CheckStructure(s: Source) returns (r: Option<ScheduleError>)
    ensures r.None? <==> StructureOk(s)
    ensures r.Some? ==> !r.value.TooManyCompiledEvents? && !r.value.OffsetOverflow? && !InvalidAction(r.value)
  {
    if s.version != SCHEMA_VERSION {
      return Some(UnsupportedVersion);
    }
    if |s.phases| > MAX_PHASES {
      return Some(TooManyPhases);
    }
    if s.repeat.Some? {
      if s.repeat.value.count == 0 || s.repeat.value.count > MAX_REPEAT_COUNT {
        return Some(RepeatOutOfRange);
      }
      if |s.repeat.value.phases| > MAX_PHASES {
        return Some(TooManyRepeatPhases);
      }
    }
    r := CheckPhases(s.phases);
    if r.Some? {
      return;
    }
    var anyAction := s.phases != [];
    if s.repeat.Some? {
      if s.repeat.value.phases == [] {
        return Some(EmptySchedule);
      }
      r := CheckPhases(s.repeat.value.phases);
      if r.Some? {
        return;
      }
      anyAction := true;
    }
    if !anyAction {
      return Some(EmptySchedule);
    }
  }

  method FlattenedPhases(s: Source) returns (out: seq<Phase>)
    ensures out == Flattened(s)
  {
    out := s.phases;
    if s.repeat.Some? {
      var phases := s.repeat.value.phases;
      for n := 0 to s.repeat.value.count
        invariant out == s.phases + Times(n, phases)
      {
        for i := 0 to |phases|
          invariant out == s.phases + (Times(n, phases) + phases[..i])
        {
          out := out + [phases[i]];
        }
        assert phases[..|phases|] == phases;
      }
    }
  }

  /** How many events the compiler would emit. */
  method ExpandedEventCount(s: Source) returns (count: nat)
    ensures count == |Output(s).events|
  {
    var flat := FlattenedPhases(s);
    count := 0;
    for i := 0 to |flat|
      invariant count == ActionCount(flat[..i])
    {
      assert flat[..i + 1][..i] == flat[..i];
      count := count + |flat[i].actions|;
    }
    assert flat[..|flat|] == flat;
    PlacesFlatten(s);
  }

  method ValidatePhaseActions(p: Phase) returns (r: Option<ScheduleError>)
    ensures r.None? <==> Emittable(p)
    ensures r == Some(TooManyPhaseActions) <==> |p.actions| > MAX_PHASE_ACTIONS
    ensures r.Some? ==> r.value.TooManyPhaseActions? || InvalidAction(r.value)
  {
    if |p.actions| > MAX_PHASE_ACTIONS {
      return Some(TooManyPhaseActions);
    }
    for i := 0 to |p.actions|
      invariant forall k :: 0 <= k < i ==> ActionOk(p.actions[k])
    {
      if !ActionOk(p.actions[i]) {
        return Some(if p.actions[i].SetDatagramPlan? then InvalidDatagramPlan else InvalidStreamPlan);
      }
    }
    r := None;
  }

  predicate InvalidAction(e: ScheduleError) { e.InvalidStreamPlan? || e.InvalidDatagramPlan? }

  /** Emit one phase's events at the cursor and move the cursor past it, if it fits a u64. */
  method EmitPhase(events: seq<Event>, cursor: u64, p: Placed, ghost places: Places)
    returns (emitted: seq<Event>, next: Option<u64>)
    requires events == Tape(places, 0, 0) && cursor == Span(places)
    ensures emitted == Tape(Snoc(places, p), 0, 0)
    ensures next == if Span(Snoc(places, p)) <= U64_MAX then Some(Span(Snoc(places, p))) else None
  {
    emitted := events;
    for i := 0 to |p.phase.actions|
      invariant emitted == events + PhaseEvents(p, i, |events|, cursor)
    {
      emitted := emitted + [Event(|emitted|, p.id, cursor, p.phase.actions[i])];
    }
    next := if cursor + p.phase.duration <= U64_MAX then Some(cursor + p.phase.duration) else None;
  }

  /** The top-level phases, each validated before it is emitted. */
  method CompileTop(phases: seq<Phase>) returns (events: seq<Event>, cursor: u64, r: Option<ScheduleError>)
    ensures r.None? <==> AllEmittable(phases) && Span(TopPlaces(phases)) <= U64_MAX
    ensures r.None? ==> events == Tape(TopPlaces(phases), 0, 0) && cursor == Span(TopPlaces(phases))
    ensures r == Some(OffsetOverflow) ==> Span(TopPlaces(phases)) > U64_MAX
    ensures r.Some? && !r.value.OffsetOverflow? ==>
            !AllEmittable(phases) && (r.value.TooManyPhaseActions? || InvalidAction(r.value))
    ensures r == Some(TooManyPhaseActions) ==> !AllPhasesOk(phases)
  {
    events, cursor, r := [], 0, None;
    for i := 0 to |phases|
      invariant events == Tape(TopPlaces(phases[..i]), 0, 0) && cursor == Span(TopPlaces(phases[..i]))
      invariant AllEmittable(phases[..i]) && r.None?
    {
      r := ValidatePhaseActions(phases[i]);
      if r.Some? {
        assert r == Some(TooManyPhaseActions) ==> !PhaseOk(phases[i]);
        return;
      }
      assert phases[..i + 1][..i] == phases[..i];
      var next;
      events, next := EmitPhase(events, cursor, Placed(Top(i), phases[i]), TopPlaces(phases[..i]));
      if next.None? {
        TopSpanGrows(phases, i + 1);
        return events, cursor, Some(OffsetOverflow);
      }
      cursor := next.value;
    }
    assert phases[..|phases|] == phases;
  }

  lemma {:induction false} TopSpanGrows(phases: seq<Phase>, n: nat)
    requires n <= |phases|
    ensures Span(TopPlaces(phases[..n])) <= Span(TopPlaces(phases))
    decreases |phases| - n
  {
    if n == |phases| {
      assert phases[..n] == phases;
    } else {
      assert phases[..n + 1][..n] == phases[..n];
      TopSpanGrows(phases, n + 1);
    }
  }

  /** Where the emission stands inside iteration n + 1, before its k-th phase. */
  ghost function Reached(top: Places, n: nat, k: nat, phases: seq<Phase>): Places
    requires k <= |phases|
  {
    Append(Append(top, Iterations(n, phases)), Iteration(n + 1, phases[..k]))
  }

  lemma {:induction false} ReachedStep(top: Places, n: nat, k: nat, phases: seq<Phase>)
    requires k < |phases|
    ensures Reached(top, n, k + 1, phases) == Snoc(Reached(top, n, k, phases), Placed(Repeat(n + 1, k), phases[k]))
  {
    assert phases[..k + 1][..k] == phases[..k];
  }

  lemma {:induction false} ReachedEnd(top: Places, n: nat, phases: seq<Phase>)
    ensures Reached(top, n, |phases|, phases) == Append(top, Iterations(n + 1, phases))
  {
    assert phases[..|phases|] == phases;
    AppendAssoc(top, Iterations(n, phases), Iteration(n + 1, phases));
  }

  lemma {:induction false} DurationGrows(phases: seq<Phase>, k: nat)
    requires k <= |phases|
    ensures Duration(phases[..k]) <= Duration(phases)
    decreases |phases| - k
  {
    if k == |phases| {
      assert phases[..k] == phases;
    } else {
      assert phases[..k + 1][..k] == phases[..k];
      DurationGrows(phases, k + 1);
    }
  }

  lemma {:induction false} IterationsGrow(n: nat, count: nat, phases: seq<Phase>)
    requires n <= count
    ensures Span(Iterations(n, phases)) <= Span(Iterations(count, phases))
    decreases count - n
  {
    if n < count {
      IterationsSums(n, phases);
      IterationsGrow(n + 1, count, phases);
    }
  }

  lemma {:induction false} ReachedGrows(top: Places, n: nat, k: nat, count: nat, phases: seq<Phase>)
    requires n < count && k <= |phases|
    ensures Span(Reached(top, n, k, phases)) <= Span(Append(top, Iterations(count, phases)))
  {
    AppendSums(top, Iterations(n, phases));
    AppendSums(top, Iterations(count, phases));
    AppendSums(Append(top, Iterations(n, phases)), Iteration(n + 1, phases[..k]));
    IterationPhases(n + 1, phases[..k]);
    DurationGrows(phases, k);
    IterationsSums(n, phases);
    IterationsGrow(n + 1, count, phases);
  }

  method ValidateAll(phases: seq<Phase>) returns (r: Option<ScheduleError>)
    ensures r.None? <==> AllEmittable(phases)
    ensures r.Some? ==> r.value.TooManyPhaseActions? || InvalidAction(r.value)
    ensures r == Some(TooManyPhaseActions) ==> !AllPhasesOk(phases)
  {
    for i := 0 to |phases|
      invariant AllEmittable(phases[..i])
    {
      r := ValidatePhaseActions(phases[i]);
      if r.Some? {
        assert r == Some(TooManyPhaseActions) ==> !PhaseOk(phases[i]);
        return;
      }
    }
    r := None;
  }

  /** Emit every iteration of the repeat block after the top-level phases. */
  method EmitIterations(block: Block, events0: seq<Event>, cursor0: u64, ghost top: Places)
    returns (events: seq<Event>, cursor: u64, ok: bool)
    requires events0 == Tape(top, 0, 0) && cursor0 == Span(top)
    ensures var all := Append(top, Iterations(block.count, block.phases));
            && (ok <==> Span(all) <= U64_MAX)
            && (ok ==> events == Tape(all, 0, 0) && cursor == Span(all))
  {
    events, cursor, ok := events0, cursor0, true;
    var phases := block.phases;
    for n := 0 to block.count
      invariant events == Tape(Append(top, Iterations(n, phases)), 0, 0) &&
                cursor == Span(Append(top, Iterations(n, phases)))
    {
      assert phases[..0] == [];
      for k := 0 to |phases|
        invariant events == Tape(Reached(top, n, k, phases), 0, 0) && cursor == Span(Reached(top, n, k, phases))
      {
        ReachedStep(top, n, k, phases);
        var next;
        events, next := EmitPhase(events, cursor, Placed(Repeat(n + 1, k), phases[k]), Reached(top, n, k, phases));
        if next.None? {
          ReachedGrows(top, n, k + 1, block.count, phases);
          return events, cursor, false;
        }
        cursor := next.value;
      }
      ReachedEnd(top, n, phases);
    }
  }

  method CompileRepeat(block: Block, events0: seq<Event>, cursor0: u64, ghost top: Places)
    returns (events: seq<Event>, cursor: u64, r: Option<ScheduleError>)
    requires events0 == Tape(top, 0, 0) && cursor0 == Span(top)
    ensures var all := Append(top, Iterations(block.count, block.phases));
            && (r.None? <==> block.count <= MAX_REPEAT_COUNT && |block.phases| <= MAX_PHASES
                             && AllEmittable(block.phases) && Span(all) <= U64_MAX)
            && (r.None? ==> events == Tape(all, 0, 0) && cursor == Span(all))
            && (r == Some(OffsetOverflow) ==> Span(all) > U64_MAX)
    ensures r.Some? && !r.value.OffsetOverflow? ==>
              || r.value.RepeatOutOfRange? || r.value.TooManyRepeatPhases?
              || (!AllEmittable(block.phases) && (r.value.TooManyPhaseActions? || InvalidAction(r.value)))
    ensures r == Some(TooManyPhaseActions) ==> !AllPhasesOk(block.phases)
    ensures r == Some(RepeatOutOfRange) ==> block.count > MAX_REPEAT_COUNT
    ensures r == Some(TooManyRepeatPhases) ==> |block.phases| > MAX_PHASES
  {
    events, cursor := events0, cursor0;
    if block.count > MAX_REPEAT_COUNT {
      return events, cursor, Some(RepeatOutOfRange);
    }
    if |block.phases| > MAX_PHASES {
      return events, cursor, Some(TooManyRepeatPhases);
    }
    r := ValidateAll(block.phases);
    if r.Some? {
      return;
    }
    var ok;
    events, cursor, ok := EmitIterations(block, events, cursor, top);
    r := if ok then None else Some(OffsetOverflow);
  }

  method Emit(s: Source) returns (events: seq<Event>, cursor: u64, r: Option<ScheduleError>)
    requires StructureOk(s)
    ensures r.None? <==>
            AllActionsOk(s.phases) && (s.repeat.Some? ==> AllActionsOk(s.repeat.value.phases)) &&
              Span(PlacesOf(s)) <= U64_MAX
    ensures r.None? ==> events == Tape(PlacesOf(s), 0, 0) && cursor == Span(PlacesOf(s))
    ensures r.Some? ==> r.value.OffsetOverflow? || InvalidAction(r.value)
    ensures r == Some(OffsetOverflow) ==> Span(PlacesOf(s)) > U64_MAX
    ensures r.Some? && InvalidAction(r.value) ==>
            !(AllActionsOk(s.phases) && (s.repeat.Some? ==> AllActionsOk(s.repeat.value.phases)))
  {
    EmittableMeans(s.phases);
    if s.repeat.Some? {
      EmittableMeans(s.repeat.value.phases);
      AppendSums(TopPlaces(s.phases), Iterations(s.repeat.value.count, s.repeat.value.phases));
    }
    events, cursor, r := CompileTop(s.phases);
    if r.None? && s.repeat.Some? {
      events, cursor, r := CompileRepeat(s.repeat.value, events, cursor, TopPlaces(s.phases));
    }
  }

  lemma {:induction false} EmittableMeans(phases: seq<Phase>)
    requires AllPhasesOk(phases)
    ensures AllEmittable(phases) <==> AllActionsOk(phases)
  {
    if AllActionsOk(phases) {
      forall i | 0 <= i < |phases| ensures Emittable(phases[i]) {
        assert PhaseOk(phases[i]) && ActionsOk(phases[i]);
      }
    }
    if AllEmittable(phases) {
      forall i | 0 <= i < |phases| ensures ActionsOk(phases[i]) {
        assert Emittable(phases[i]);
      }
    }
  }

  /** The last bound check. */
  method Finish(s: Source, events: seq<Event>, cursor: u64) returns (r: Result)
    ensures |events| > MAX_COMPILED_EVENTS ==> r == Err(TooManyCompiledEvents(|events|))
    ensures |events| <= MAX_COMPILED_EVENTS ==>
              r == Ok(Compiled(COMPILER_VERSION, s.seed, s.executionKey, s.isolation, s.cleanup, events, cursor))
  {
    if |events| > MAX_COMPILED_EVENTS {
      return Err(TooManyCompiledEvents(|events|));
    }
    r := Ok(Compiled(COMPILER_VERSION, s.seed, s.executionKey, s.isolation, s.cleanup, events, cursor));
  }

  /** Compilation succeeds exactly on compilable schedules, with exactly the specified tape; overflow
      and size errors mean what they say. */
  method CompileSchedule(s: Source) returns (r: Result)
    ensures r.Ok? <==> Compilable(s)
    ensures r.Ok? ==> r.compiled == Output(s)
    ensures r.Err? && r.error.TooManyCompiledEvents? ==>
            r.error.count == ActionCount(Flattened(s)) > MAX_COMPILED_EVENTS
    ensures r == Err(OffsetOverflow) ==> Duration(Flattened(s)) > U64_MAX
    ensures r.Err? && InvalidAction(r.error) ==>
            !(AllActionsOk(s.phases) && (s.repeat.Some? ==> AllActionsOk(s.repeat.value.phases)))
  {
    var e := CheckStructure(s);
    if e.Some? {
      return Err(e.value);
    }
    PlacesFlatten(s);
    var total := ExpandedEventCount(s);
    if total > MAX_COMPILED_EVENTS {
      return Err(TooManyCompiledEvents(total));
    }
    var events, cursor;
    events, cursor, e := Emit(s);
    if e.Some? {
      return Err(e.value);
    }
    r := Finish(s, events, cursor);
  }

  /** What a successful compilation promises: as many events as actions, numbered from zero, carrying the
      actions of the flattened phases in order, at non-decreasing offsets that are the summed durations
      of the phases before. */
  lemma {:induction false} OutputMeans(s: Source, i: nat, k: nat) returns (phase: nat)
    requires i <= k < |Output(s).events|
    ensures var t := Output(s).events;
            && Actions(t) == AllActions(Flattened(s)) && |t| == ActionCount(Flattened(s))
            && t[i].index == i && t[i].offset <= t[k].offset <= Output(s).totalDuration
            && Belongs(Flattened(s), phase, 0, i, t[i])
  {
    PlacesFlatten(s);
    TapeActions(PlacesOf(s), 0, 0);
    TapeSorted(PlacesOf(s), 0, 0, i, k);
    phase := TapeEvent(PlacesOf(s), 0, 0, i);
  }

  /** In the compiled tape the repeat block follows the top-level events, each iteration shifted. */
  lemma {:induction false} OutputRepeats(s: Source, b: Block)
    requires s.repeat == Some(b)
    ensures var top, all := Tape(TopPlaces(s.phases), 0, 0), Output(s).events;
            && |top| <= |all| && all[..|top|] == top
            && Periodic(all[|top|..], ActionCount(b.phases), Duration(b.phases))
  {
    var top := TopPlaces(s.phases);
    TapeAppend(top, Iterations(b.count, b.phases), 0, 0);
    RepeatShift(b.count, b.phases, Width(top), Span(top));
    assert Output(s).events[|Tape(top, 0, 0)|..] == Tape(Iterations(b.count, b.phases), Width(top), Span(top));
  }

  /** Every compiled deadline offset fits a u64. */
  lemma {:induction false} OffsetsFit(s: Source)
    requires Compilable(s)
    ensures forall i :: 0 <= i < |Output(s).events| ==> Output(s).events[i].offset <= U64_MAX
  {
    PlacesFlatten(s);
    forall i | 0 <= i < |Output(s).events| ensures Output(s).events[i].offset <= U64_MAX {
      TapeSorted(PlacesOf(s), 0, 0, i, i);
    }
  }
}
