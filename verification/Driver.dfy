/** The schedule driver (driver.rs): preparation, the event loop, and generation-guarded cleanup,
    against a target that other publishers change between any two of its calls. */
module Driver {
  import opened Common
  import opened Schedule
  import opened PolicyTargets
  import opened DriverProofs
  import StreamEngine
  import Compiler
  import LivePolicies

  datatype Status = Completed | Failed | Cancelled

  datatype Failure = InvalidPlan | NotFound | FaultAbsent | PublishFailed | EvidenceFailed

  /** The environment of one event: whether cancellation was requested before it, the clock when its
      deadline is checked, whether cancellation interrupts its sleep, and how long after waking the
      event is applied. */
  datatype Moment = Moment(cancelled: bool, checked: nat, interrupted: bool, lag: nat)

  datatype Report = Report(
    status: Status, failure: Option<Failure>, applied: nat, records: seq<EventResult>,
      cleanup: map<Resource, CleanupOutcome>)

  /** The first n events touch owned resources only. */
  ghost predicate Covers(events: seq<Event>, n: nat, owned: map<Resource, Owned>)
    requires n <= |events|
  {
    forall i :: 0 <= i < n ==> ResourceOf(events[i].action) in owned
  }

  /** Not yet cleaned up: nothing restored, and the fold of the events applied so far. */
  ghost predicate Open(j: Job, w: World, d: Progress, r: Resource)
    requires r in d.marks && d.published <= |j.events|
  {
    FoldOk(j, w, d, r) && !RestoredLast(w.log, d.marks[r].since, r)
  }

  /** The run so far, with no resource cleaned up yet. */
  ghost predicate Running(j: Job, w: World, d: Progress) {
    RunOk(j, w, d) && AllOpen(j, w, d)
  }

  ghost predicate AllOpen(j: Job, w: World, d: Progress)
    requires d.published <= |j.events|
  {
    forall r <- d.marks :: Open(j, w, d, r)
  }

  lemma {:induction false} MovedRunning(j: Job, w: World, d: Progress, rivals: seq<seq<Edit>>)
    requires Running(j, w, d)
    ensures Running(j, Moved(w, rivals), d) && Drift(w, Moved(w, rivals), d.marks)
  {
    MovedKeeps(j, w, d, rivals);
    forall r | r in d.marks ensures Open(j, Moved(w, rivals), d, r) {
      assert Open(j, w, d, r);
    }
  }

  // --- Preparation ---

  ghost function Adopt(d: Progress, w: World, r: Resource): Progress
    requires r in w.policies
  {
    var p := w.policies[r];
    d.(owned := d.owned[r := Owned(p.generation, p.plan)], marks := d.marks[r := Mark(|w.log|, p)])
  }

  lemma {:induction false} AdoptKeeps(j: Job, w: World, d: Progress, r: Resource)
    requires Running(j, w, d) && r in w.policies && r !in d.owned && d.published == 0
    ensures Running(j, w, Adopt(d, w, r))
  {
    AdoptOwner(j, w, d, r);
    AdoptLog(j, w, d, r);
    var e := Adopt(d, w, r);
    forall q | q in e.marks ensures Open(j, w, e, q) {
      if q != r {
        assert Open(j, w, d, q);
      }
    }
  }

  lemma {:induction false} AdoptOwner(j: Job, w: World, d: Progress, r: Resource)
    requires WorldOk(w) && OwnersOk(j, w, d) && r in w.policies && r !in d.owned
    ensures OwnersOk(j, w, Adopt(d, w, r))
  {
  }

  lemma {:induction false} AdoptLog(j: Job, w: World, d: Progress, r: Resource)
    requires LogOk(j, w.log, d) && r in w.policies && r !in d.marks
    ensures LogOk(j, w.log, Adopt(d, w, r))
  {
    var e := Adopt(d, w, r);
    forall i | 0 <= i < |w.log| ensures FaithfulEntry(j, e.marks, w.log[i]) {
      assert FaithfulEntry(j, d.marks, w.log[i]);
    }
  }

  ghost predicate Reachable(target: PolicyTarget, r: Resource)
    reads target
  {
    target.Supports(r) && r in target.policies
  }

  ghost predicate AllSupported(target: PolicyTarget, owned: map<Resource, Owned>) {
    forall r <- owned :: target.Supports(r)
  }

  lemma {:induction false} OwnOneMore(target: PolicyTarget, events: seq<Event>, n: nat, owned: map<Resource, Owned>,
                                      entry: Owned)
    requires n < |events| && Covers(events, n, owned) && AllSupported(target, owned) &&
             target.Supports(ResourceOf(events[n].action))
    ensures var more := owned[ResourceOf(events[n].action) := entry];
            Covers(events, n + 1, more) && AllSupported(target, more)
  {
  }

  /** Snapshot one resource and start tracking it. */
  method PrepareResource(target: PolicyTarget, j: Job, r: Resource, ghost d: Progress)
    returns (s: Result<Owned>, ghost d': Progress)
    requires Running(j, target.Value(), d) && r !in d.owned && d.published == 0 && AllExternal(target.log)
    modifies target`policies, target`rivals, target`log
    ensures Running(j, target.Value(), d') && d'.published == 0 && d'.records == d.records && AllExternal(target.log)
    ensures s.Ok? ==> d'.owned == d.owned[r := s.value]
    ensures s.Err? <==> !Reachable(target, r)
    ensures Alone(old(target.Now())) ==> target.Now() == old(target.Now())
  {
    d' := d;
    if !target.Supports(r) {
      return Err(UnsupportedCapability), d';
    }
    MovedRunning(j, target.Value(), d, target.rivals);
    if target.rivals != [] {
      EditsExternal(target.Value(), target.rivals[0]);
    }
    var p := target.Snapshot(r);
    if p.Err? {
      return Err(p.error), d';
    }
    AdoptKeeps(j, target.Value(), d, r);
    d' := Adopt(d, target.Value(), r);
    s := Ok(Owned(p.value.generation, p.value.plan));
  }

  /** The run itself has published nothing. */
  ghost predicate AllExternal(log: seq<Publication>) {
    forall i :: 0 <= i < |log| ==> log[i].source.External?
  }

  lemma {:induction false} EditsExternal(w: World, edits: seq<Edit>)
    requires AllExternal(w.log)
    ensures AllExternal(EditAll(w, edits).log)
    decreases |edits|
  {
    if edits != [] {
      EditsExternal(EditOne(w, edits[0]), edits[1..]);
    }
  }

  /** Everything the first n events touch is prepared, and nothing has been published. */
  ghost predicate Preparing(target: PolicyTarget, j: Job, w: World, d: Progress, n: nat) {
    && Running(j, w, d) && d.published == 0 && d.records == [] && AllExternal(w.log)
    && n <= |j.events| && Covers(j.events, n, d.owned) && AllSupported(target, d.owned)
  }

  method PrepareEvent(target: PolicyTarget, j: Job, i: nat, owned: map<Resource, Owned>, ghost d: Progress)
    returns (r: Result<map<Resource, Owned>>, ghost d': Progress)
    requires i < |j.events| && Preparing(target, j, target.Value(), d, i) && d.owned == owned
    modifies target`policies, target`rivals, target`log
    ensures r.Ok? ==> d'.owned == r.value && Preparing(target, j, target.Value(), d', i + 1)
    ensures r.Err? ==> !Reachable(target, ResourceOf(j.events[i].action))
    ensures r.Err? ==> Running(j, target.Value(), d') && AllExternal(target.log)
    ensures Alone(old(target.Now())) ==> target.Now() == old(target.Now())
  {
    var resource := ResourceOf(j.events[i].action);
    if resource in owned {
      return Ok(owned), d;
    }
    var s;
    s, d' := PrepareResource(target, j, resource, d);
    if s.Err? {
      return Err(s.error), d';
    }
    OwnOneMore(target, j.events, i, owned, s.value);
    r := Ok(owned[resource := s.value]);
  }

  /** Snapshot every resource the tape touches. Failing publishes nothing. */
  method PrepareInitial(target: PolicyTarget, j: Job)
    returns (r: Result<map<Resource, Owned>>, ghost d: Progress, ghost culprit: nat)
    requires target.log == [] && target.policies == j.registry && target.valid == j.valid && WorldOk(target.Value())
    modifies target`policies, target`rivals, target`log
    ensures r.Ok? ==> d.owned == r.value && Preparing(target, j, target.Value(), d, |j.events|)
    ensures r.Err? ==> culprit < |j.events| && !Reachable(target, ResourceOf(j.events[culprit].action))
    ensures r.Err? ==> Running(j, target.Value(), d) && AllExternal(target.log)
    ensures Alone(old(target.Now())) ==> target.Now() == old(target.Now())
  {
    r, d, culprit := Ok(map[]), Progress(map[], map[], 0, []), 0;
    for i := 0 to |j.events|
      invariant r.Ok? && d.owned == r.value && Preparing(target, j, target.Value(), d, i)
      invariant Alone(old(target.Now())) ==> target.Now() == old(target.Now())
    {
      r, d := PrepareEvent(target, j, i, r.value, d);
      if r.Err? {
        culprit := i;
        return;
      }
    }
  }

  // --- Runs nobody interferes with ---

  /** Nobody else publishes, or has published. */
  ghost predicate Alone(s: Stage) {
    s.rivals == [] && forall i :: 0 <= i < |s.world.log| ==> s.world.log[i].source.Tape?
  }

  /** A call of the target leaves the run alone. */
  lemma {:induction false} AloneShifts(s: Stage)
    ensures Alone(s) ==> Shift(s) == s
  {
  }

  // --- One event ---

  /** The plan an event would publish is what its action makes of the policy at the expected
      generation. */
  ghost predicate Ready(w: World, a: Action, plan: TargetPlan, expected: nat) {
    var r := ResourceOf(a);
    && r in w.policies && expected <= w.policies[r].generation
    && (w.policies[r].generation == expected ==> plan == Effect(a, w.policies[r].plan))
  }

  lemma {:induction false} ReadyDrift(w: World, u: World, marks: map<Resource, Mark>, a: Action, plan: TargetPlan,
                                      expected: nat)
    requires Ready(w, a, plan, expected) && Drift(w, u, marks)
    ensures Ready(u, a, plan, expected)
  {
  }

  datatype Attempt = Planned(plan: TargetPlan) | Rejected(failure: Failure)

  /** The replacement plan of a removal, computed from a snapshot. */
  function Removal(valid: TargetPlan -> bool, r: Resource, plan: TargetPlan, id: string): (a: Attempt)
    ensures a.Planned? ==> a.plan == Without(plan, id)
    ensures a.Planned? <==> (r.transport.Stream? <==> plan.StreamFaults?) && id in Ids(plan)
                            && (r.transport.Datagram? ==> valid(Without(plan, id)))
    ensures a == Rejected(FaultAbsent) <==> (r.transport.Stream? <==> plan.StreamFaults?) && id !in Ids(plan)
  {
    if r.transport.Stream? != plan.StreamFaults? then Rejected(NotFound)
    else if id !in Ids(plan) then Rejected(FaultAbsent)
    else if r.transport.Datagram? && !valid(Without(plan, id)) then Rejected(InvalidPlan)
    else Planned(Without(plan, id))
  }

  predicate Removes(a: Action) { a.RemoveFault? || a.RemoveDatagramFault? }

  /** The target when an event has decided what to publish: a strict set-plan asks it nothing before. */
  ghost function Consulted(strict: bool, s: Stage, a: Action): Stage {
    if strict && !Removes(a) then s else Shift(s)
  }

  /** The generation the event expects: the one the run owns, or in live mode the one it found. */
  ghost function Expecting(strict: bool, s: Stage, a: Action, last: nat): nat {
    var (r, w) := (ResourceOf(a), Consulted(strict, s, a).world);
    if strict || r !in w.policies then last else w.policies[r].generation
  }

  /** The event finds what it needs to decide on a plan. */
  ghost predicate Plannable(supported: bool, strict: bool, w: World, a: Action) {
    var r := ResourceOf(a);
    && r in w.policies
    && if Removes(a) then supported && Removal(w.valid, r, w.policies[r].plan, a.id).Planned?
       else (strict || supported) && w.valid(Effect(a, w.policies[r].plan))
  }

  /** What planning an event comes to, with the target then in state t. */
  ghost predicate PlannedAs(supported: bool, strict: bool, s: Stage, a: Action, last: nat, p: Attempt, expected: nat,
                            t: Stage) {
    && (p.Planned? <==> Plannable(supported, strict, Consulted(strict, s, a).world, a))
    && (p.Planned? ==>
          && t == Consulted(strict, s, a) && expected == Expecting(strict, s, a, last)
          && p.plan == Effect(a, t.world.policies[ResourceOf(a)].plan))
  }

  /** When an event publishes: its resource is supported and present, the fault it removes is there, the plan
      it makes is valid and of the resource's family, and the generation it expects is still current, below
      the last one, when the publication arrives. */
  ghost predicate CanPublish(supported: bool, strict: bool, s: Stage, a: Action, last: nat) {
    var (r, seen) := (ResourceOf(a), Consulted(strict, s, a));
    var w := Shift(seen).world;
    && supported && r in seen.world.policies && (Removes(a) ==> a.id in Ids(seen.world.policies[r].plan))
    && Accepts(w.valid, w.policies, r, Effect(a, seen.world.policies[r].plan))
    && w.policies[r].generation == Expecting(strict, s, a, last)
  }

  /** Its evidence can be read: of a stream, the other direction too. */
  ghost predicate Readable(w: World, r: Resource) {
    r.transport.Stream? ==> Sibling(r) in w.policies
  }

  /** Event i is applied exactly if it publishes and its evidence can be read. */
  ghost predicate AppliedIff(j: Job, i: nat, supported: bool, s: Stage, owned: map<Resource, Owned>,
                             failure: Option<Failure>) {
    && i < |j.events| && ResourceOf(j.events[i].action) in owned
    && var a := j.events[i].action;
       var can := CanPublish(supported, j.strict, s, a, owned[ResourceOf(a)].last);
       && (failure.None? <==> can && Readable(s.world, ResourceOf(a)))
       && (failure == Some(EvidenceFailed) <==> can && !Readable(s.world, ResourceOf(a)))
  }

  lemma {:induction false} ConsultedOk(j: Job, s: Stage, d: Progress, a: Action)
    requires Running(j, s.world, d)
    ensures var seen := Consulted(j.strict, s, a);
            && WorldOk(seen.world) && seen.world.valid == s.world.valid == Shift(seen).world.valid
            && seen.world.policies.Keys == s.world.policies.Keys
            && (ResourceOf(a) in d.owned ==> ResourceOf(a) in seen.world.policies)
  {
    MovedRunning(j, s.world, d, s.rivals);
    var seen := Consulted(j.strict, s, a);
    MovedRunning(j, seen.world, d, seen.rivals);
    if ResourceOf(a) in d.owned {
      assert Tracked(j.strict, s.world, ResourceOf(a), d.marks[ResourceOf(a)], d.owned[ResourceOf(a)].last);
    }
  }

  /** Planning never refuses what could be published. */
  lemma {:induction false} PlannableEnough(supported: bool, strict: bool, s: Stage, a: Action, last: nat)
    requires CanPublish(supported, strict, s, a, last) && WorldOk(Consulted(strict, s, a).world)
    requires Shift(Consulted(strict, s, a)).world.valid == Consulted(strict, s, a).world.valid
    ensures Plannable(supported, strict, Consulted(strict, s, a).world, a)
  {
  }

  /** Strict mode expects the generation the run owns, live mode the one current at fire time. */
  method ExpectedGeneration(target: PolicyTarget, r: Resource, strict: bool, owned: map<Resource, Owned>)
    returns (g: Option<nat>)
    modifies target
    ensures target.global == old(target.global)
    ensures if strict && r in owned then g == Some(owned[r].last) && target.Now() == old(target.Now())
            else target.Now() == Shift(old(target.Now()))
                 && g == if Reachable(target, r) then Some(target.policies[r].generation) else None
  {
    if strict && r in owned {
      return Some(owned[r].last);
    }
    var c := target.CurrentGeneration(r);
    g := if c.Ok? then Some(c.value) else None;
  }

  method PlanSet(target: PolicyTarget, j: Job, a: Action, plan: TargetPlan, owned: map<Resource, Owned>,
                 ghost d: Progress)
    returns (p: Attempt, expected: nat)
    requires Running(j, target.Value(), d) && d.owned == owned && ResourceOf(a) in owned
    requires !Removes(a) && forall base :: Effect(a, base) == plan
    modifies target
    ensures Running(j, target.Value(), d) && target.policies.Keys == old(target.policies.Keys)
    ensures p.Planned? ==>
            Ready(target.Value(), a, p.plan, expected) && (j.strict ==> expected == owned[ResourceOf(a)].last)
    ensures p.Rejected? ==> p.failure != EvidenceFailed
    ensures PlannedAs(target.Supports(ResourceOf(a)), j.strict, old(target.Now()), a, owned[ResourceOf(a)].last, p,
                      expected, target.Now())
    ensures Alone(old(target.Now())) ==> Alone(target.Now())
  {
    ConsultedOk(j, target.Now(), d, a);
    if !target.valid(plan) {
      return Rejected(InvalidPlan), 0;
    }
    MovedRunning(j, target.Value(), d, target.rivals);
    var g := ExpectedGeneration(target, ResourceOf(a), j.strict, owned);
    if g.None? {
      return Rejected(NotFound), 0;
    }
    return Planned(plan), g.value;
  }

  method PlanRemove(target: PolicyTarget, j: Job, a: Action, id: string, owned: map<Resource, Owned>, ghost d: Progress)
    returns (p: Attempt, expected: nat)
    requires Running(j, target.Value(), d) && d.owned == owned && ResourceOf(a) in owned
    requires Removes(a) && a.id == id && forall base :: Effect(a, base) == Without(base, id)
    modifies target
    ensures Running(j, target.Value(), d) && target.policies.Keys == old(target.policies.Keys)
    ensures p.Planned? ==>
            Ready(target.Value(), a, p.plan, expected) && (j.strict ==> expected == owned[ResourceOf(a)].last)
    ensures p.Rejected? ==> p.failure != EvidenceFailed
    ensures PlannedAs(target.Supports(ResourceOf(a)), j.strict, old(target.Now()), a, owned[ResourceOf(a)].last, p,
                      expected, target.Now())
    ensures Alone(old(target.Now())) ==> Alone(target.Now())
  {
    var r := ResourceOf(a);
    MovedRunning(j, target.Value(), d, target.rivals);
    var s := target.Snapshot(r);
    if s.Err? {
      return Rejected(NotFound), 0;
    }
    p := Removal(target.valid, r, s.value.plan, id);
    if p.Rejected? {
      return p, 0;
    }
    expected := s.value.generation;
    if j.strict {
      var g := ExpectedGeneration(target, r, j.strict, owned);
      expected := g.value;
    }
  }

  lemma {:induction false} EventKeeps(j: Job, w: World, d: Progress, plan: TargetPlan, expected: nat, at: nat)
    requires Running(j, w, d) && d.published < |j.events|
    requires var e := j.events[d.published]; var r := ResourceOf(e.action);
             && r in d.owned && Ready(w, e.action, plan, expected) && Accepts(w.valid, w.policies, r, plan)
             && w.policies[r].generation == expected && (j.strict ==> expected == d.owned[r].last) &&
                j.epoch + e.offset <= at
    ensures var e := j.events[d.published]; var r := ResourceOf(e.action);
            var source := Tape(d.published, at);
            var u := Install(w, source, r, plan, j.seedOf(e.index));
            Running(j, u, Advanced(d, w, source, r)) && GenerationOf(u.log, d.published) == expected + 1
  {
    var e := j.events[d.published];
    var r := ResourceOf(e.action);
    var source := Tape(d.published, at);
    var u := Install(w, source, r, plan, j.seedOf(e.index));
    OwnKeeps(j, w, d, source, r, plan, j.seedOf(e.index));
    forall q | q in d.marks ensures Open(j, u, Advanced(d, w, source, r), q) {
      assert Open(j, w, d, q);
      assert Tracked(j.strict, w, q, d.marks[q], d.owned[q].last);
      if j.strict {
        FoldKeeps(j, w, u, d, Advanced(d, w, source, r), q);
      }
    }
  }

  lemma {:induction false} EditsKeepGeneration(w: World, edits: seq<Edit>, i: nat)
    ensures GenerationOf(EditAll(w, edits).log, i) == GenerationOf(w.log, i)
    decreases |edits|
  {
    if edits != [] {
      var u := EditOne(w, edits[0]);
      if u != w {
        GenerationStays(w.log, u.log[|w.log|], i);
      }
      EditsKeepGeneration(u, edits[1..], i);
    }
  }

  method UpdateOwned(owned: map<Resource, Owned>, r: Resource, generation: nat) returns (updated: map<Resource, Owned>)
    ensures r in owned ==> updated == owned[r := owned[r].(last := generation)]
    ensures r !in owned ==>
            updated == owned[r := Owned(generation, if r.transport.Stream? then StreamFaults([])
                                        else DatagramFaults([]))]
  {
    if r in owned {
      updated := owned[r := owned[r].(last := generation)];
    } else {
      updated := owned[r := Owned(generation, if r.transport.Stream? then StreamFaults([]) else DatagramFaults([]))];
    }
  }

  function Sibling(r: Resource): Resource {
    r.(direction := if r.direction.Upstream? then StreamEngine.Downstream else StreamEngine.Upstream)
  }

  /** The generation of a stream's other direction; datagram directions are reported alone. */
  function SiblingGeneration(policies: map<Resource, Policy>, r: Resource): nat {
    if r.transport.Stream? && Sibling(r) in policies then policies[Sibling(r)].generation else 0
  }

  /** The record shows the other direction's generation and the target-wide count, as they are. */
  ghost predicate Witnessed(x: EventResult, policies: map<Resource, Policy>, global: nat) {
    && x.global == global
    && (if x.resource.direction.Upstream? then x.downstream else x.upstream) == SiblingGeneration(policies, x.resource)
  }

  /** Pair a published generation with the other direction's; only stream resources read that one. */
  method DirectionalGenerations(target: PolicyTarget, r: Resource, generation: nat) returns (g: Option<(nat, nat)>)
    modifies target
    ensures target.Now() == old(target.Now()) || target.Now() == Shift(old(target.Now()))
    ensures g.Some? ==> (if r.direction.Upstream? then g.value.0 else g.value.1) == generation
    ensures g.None? <==> r.transport.Stream? && !(target.Supports(r) && Sibling(r) in target.policies)
    ensures g.Some? ==>
              (if r.direction.Upstream? then g.value.1 else g.value.0) == SiblingGeneration(target.policies, r)
    ensures target.global == old(target.global)
  {
    var other := 0;
    if r.transport.Stream? {
      var c := target.CurrentGeneration(Sibling(r));
      if c.Err? {
        return None;
      }
      other := c.value;
    }
    g := Some(if r.direction.Upstream? then (generation, other) else (other, generation));
  }

  /** An event is ready to be published in the world the next call starts from. */
  ghost predicate Publishable(j: Job, w: World, d: Progress, plan: TargetPlan, expected: nat, at: nat) {
    && Running(j, w, d) && d.published < |j.events|
    && var e := j.events[d.published]; var r := ResourceOf(e.action);
       && r in d.owned && Ready(w, e.action, plan, expected)
       && (j.strict ==> expected == d.owned[r].last) && j.epoch + e.offset <= at
  }

  /** One more event published, and the run owns r at `generation`. */
  ghost predicate TookOver(d: Progress, r: Resource, generation: nat, e: Progress) {
    r in d.owned && e == d.(owned := d.owned[r := d.owned[r].(last := generation)], published := d.published + 1)
  }

  /** A guarded publication lands. */
  ghost predicate Lands(supported: bool, w: World, r: Resource, plan: TargetPlan, expected: nat) {
    supported && Accepts(w.valid, w.policies, r, plan) && w.policies[r].generation == expected
  }

  /** Interference keeps it so; and if the expected generation survives, the run advances by one event. */
  lemma {:induction false} PublishKeeps(j: Job, w0: World, rivals: seq<seq<Edit>>, d: Progress, plan: TargetPlan,
                                        expected: nat, at: nat)
    requires Publishable(j, w0, d, plan, expected, at)
    ensures var (w, e) := (Moved(w0, rivals), j.events[d.published]);
            var (r, source) := (ResourceOf(e.action), Tape(d.published, at));
            && Running(j, w, d) && r in w.policies && w.policies.Keys == w0.policies.Keys
            && (Lands(true, w, r, plan, expected) ==>
                  && Running(j, Install(w, source, r, plan, j.seedOf(e.index)), Advanced(d, w, source, r))
                  && TookOver(d, r, expected + 1, Advanced(d, w, source, r))
                  && Install(w, source, r, plan, j.seedOf(e.index)).policies.Keys == w0.policies.Keys
                  && GenerationOf(Install(w, source, r, plan, j.seedOf(e.index)).log, d.published) == expected + 1)
  {
    var w := Moved(w0, rivals);
    MovedRunning(j, w0, d, rivals);
    var e := j.events[d.published];
    ReadyDrift(w0, w, d.marks, e.action, plan, expected);
    if Lands(true, w, ResourceOf(e.action), plan, expected) {
      EventKeeps(j, w, d, plan, expected, at);
    }
  }

  /** Publish to an owned resource and take over the new generation. */
  method PublishOwned(target: PolicyTarget, r: Resource, plan: TargetPlan, expected: nat, namespace: nat,
                      owned: map<Resource, Owned>, ghost source: Source)
    returns (ok: bool, updated: map<Resource, Owned>)
    requires r in owned
    modifies target
    ensures source.Tape? && Alone(old(target.Now())) ==> Alone(target.Now())
    ensures var w := Moved(old(target.Value()), old(target.rivals));
            && (ok <==> Lands(target.Supports(r), w, r, plan, expected))
            && target.Value() == (if ok then Install(w, source, r, plan, namespace) else w)
    ensures updated == if ok then owned[r := owned[r].(last := expected + 1)] else owned
  {
    var g := target.Publish(r, expected, plan, namespace, source);
    ok, updated := g.Ok?, owned;
    if ok {
      updated := UpdateOwned(owned, r, g.value);
    }
  }

  /** Publish a planned event: on success the run advances by one published event. */
  method PublishEvent(target: PolicyTarget, j: Job, plan: TargetPlan, expected: nat, at: nat,
                      owned: map<Resource, Owned>, i: nat, ghost d: Progress)
    returns (ok: bool, updated: map<Resource, Owned>, ghost d': Progress)
    requires Publishable(j, target.Value(), d, plan, expected, at) && d.owned == owned && d.published == i
    modifies target
    ensures Running(j, target.Value(), d') && d'.owned == updated && updated.Keys == owned.Keys
    ensures d'.marks == d.marks && d'.records == d.records
    ensures d'.published == if ok then i + 1 else i
    ensures ok ==> GenerationOf(target.log, i) == expected + 1
    ensures target.policies.Keys == old(target.policies.Keys)
    ensures var r := ResourceOf(j.events[i].action);
            ok <==> Lands(target.Supports(r), Shift(old(target.Now())).world, r, plan, expected)
    ensures Alone(old(target.Now())) ==> Alone(target.Now())
  {
    ghost var w := Moved(target.Value(), target.rivals);
    PublishKeeps(j, target.Value(), target.rivals, d, plan, expected, at);
    var e := j.events[i];
    ok, updated := PublishOwned(target, ResourceOf(e.action), plan, expected, j.seedOf(e.index), owned, Tape(i, at));
    d' := if ok then Advanced(d, w, Tape(i, at), ResourceOf(e.action)) else d;
  }

  method PlanEvent(target: PolicyTarget, j: Job, a: Action, owned: map<Resource, Owned>, ghost d: Progress)
    returns (p: Attempt, expected: nat)
    requires Running(j, target.Value(), d) && d.owned == owned && ResourceOf(a) in owned
    modifies target
    ensures Running(j, target.Value(), d) && target.policies.Keys == old(target.policies.Keys)
    ensures p.Planned? ==>
            Ready(target.Value(), a, p.plan, expected) && (j.strict ==> expected == owned[ResourceOf(a)].last)
    ensures p.Rejected? ==> p.failure != EvidenceFailed
    ensures PlannedAs(target.Supports(ResourceOf(a)), j.strict, old(target.Now()), a, owned[ResourceOf(a)].last, p,
                      expected, target.Now())
    ensures Alone(old(target.Now())) ==> Alone(target.Now())
  {
    match a {
      case SetPlan(_, _, faults) => p, expected := PlanSet(target, j, a, StreamFaults(faults), owned, d);
      case SetDatagramPlan(_, _, stages) => p, expected := PlanSet(target, j, a, DatagramFaults(stages), owned, d);
      case RemoveFault(_, _, id) => p, expected := PlanRemove(target, j, a, id, owned, d);
      case RemoveDatagramFault(_, _, id) => p, expected := PlanRemove(target, j, a, id, owned, d);
    }
  }

  lemma {:induction false} RecordKeeps(j: Job, w: World, d: Progress, rec: EventResult)
    requires Running(j, w, d) && |d.records| < d.published && RecordOk(j, w.log, |d.records|, rec)
    ensures Running(j, w, d.(records := d.records + [rec]))
  {
    var e := d.(records := d.records + [rec]);
    forall i | 0 <= i < |e.records| ensures RecordOk(j, w.log, i, e.records[i]) {
      assert i < |d.records| ==> RecordOk(j, w.log, i, d.records[i]);
    }
    forall r | r in d.marks ensures Open(j, w, e, r) {
      assert Open(j, w, d, r);
    }
  }

  /** One more event is recorded, at this time. */
  ghost predicate OneMoreRecord(records: seq<EventResult>, recorded: seq<EventResult>, elapsed: int) {
    |recorded| == |records| + 1 && records <= recorded && recorded[|records|].appliedElapsed == elapsed
  }

  /** Record the evidence of the event just published, unless the sibling direction cannot be read. */
  method RecordEvent(target: PolicyTarget, j: Job, elapsed: nat, generation: nat, records: seq<EventResult>,
                     ghost d: Progress)
    returns (recorded: seq<EventResult>, ghost d': Progress)
    requires Running(j, target.Value(), d) && d.records == records && d.published == |records| + 1
    requires j.events[|records|].offset <= elapsed && GenerationOf(target.log, |records|) == generation
    modifies target
    ensures Running(j, target.Value(), d') && d' == d.(records := recorded)
    ensures recorded == records || OneMoreRecord(records, recorded, elapsed)
    ensures |recorded| > |records| ==> Witnessed(recorded[|records|], target.policies, target.global)
    ensures recorded == records <==>
              var r := ResourceOf(j.events[|records|].action);
              r.transport.Stream? && !(target.Supports(r) && Sibling(r) in old(target.policies))
    ensures Alone(old(target.Now())) ==> Alone(target.Now())
  {
    var i := |records|;
    var e := j.events[i];
    var r := ResourceOf(e.action);
    MovedRunning(j, target.Value(), d, target.rivals);
    if target.rivals != [] {
      EditsKeepGeneration(target.Value(), target.rivals[0], i);
    }
    var g := DirectionalGenerations(target, r, generation);
    if g.None? {
      return records, d;
    }
    var rec := EventResult(e.index, e.phase, e.offset, elapsed, elapsed - e.offset, ActionName(e.action), r, g.value.0,
                           g.value.1, target.global);
    RecordKeeps(j, target.Value(), d, rec);
    recorded := records + [rec];
    d' := d.(records := recorded);
  }

  /** Plan an event and publish it on the expected generation. */
  method AttemptEvent(target: PolicyTarget, j: Job, at: nat, owned: map<Resource, Owned>, i: nat, ghost d: Progress)
    returns (failure: Option<Failure>, updated: map<Resource, Owned>, generation: nat, ghost d': Progress)
    requires Running(j, target.Value(), d) && d.owned == owned && d.published == i < |j.events|
    requires ResourceOf(j.events[i].action) in owned && j.epoch + j.events[i].offset <= at
    modifies target
    ensures Running(j, target.Value(), d') && d'.owned == updated && updated.Keys == owned.Keys
    ensures d'.marks == d.marks && d'.records == d.records && target.policies.Keys == old(target.policies.Keys)
    ensures failure.None? ==> d'.published == i + 1 && GenerationOf(target.log, i) == generation
    ensures failure.Some? ==> d'.published == i && failure.value != EvidenceFailed
    ensures Alone(old(target.Now())) ==> Alone(target.Now())
    ensures var a := j.events[i].action;
            failure.None? <==> CanPublish(target.Supports(ResourceOf(a)), j.strict, old(target.Now()), a,
                                          owned[ResourceOf(a)].last)
  {
    var a := j.events[i].action;
    ghost var s := target.Now();
    ghost var last := owned[ResourceOf(a)].last;
    ConsultedOk(j, s, d, a);
    if CanPublish(target.Supports(ResourceOf(a)), j.strict, s, a, last) {
      PlannableEnough(target.Supports(ResourceOf(a)), j.strict, s, a, last);
    }
    var p, expected := PlanEvent(target, j, a, owned, d);
    generation := expected + 1;
    if p.Rejected? {
      return Some(p.failure), owned, generation, d;
    }
    var ok;
    ok, updated, d' := PublishEvent(target, j, p.plan, expected, at, owned, i, d);
    failure := if ok then None else Some(PublishFailed);
  }

  /** Apply one event: plan, publish on the expected generation, then collect its evidence. It succeeds
      exactly when it can be applied; it may have published and still fail, but only when that last step
      cannot read the sibling direction. */
  method ApplyEvent(target: PolicyTarget, j: Job, at: nat, owned: map<Resource, Owned>, records: seq<EventResult>,
                    ghost d: Progress)
    returns (failure: Option<Failure>, updated: map<Resource, Owned>, recorded: seq<EventResult>, ghost d': Progress)
    requires Running(j, target.Value(), d) && d.owned == owned && d.records == records &&
             d.published == |records| < |j.events|
    requires var e := j.events[|records|];
             ResourceOf(e.action) in owned && j.epoch + e.offset <= at && e.offset <= U64_MAX
    modifies target
    ensures Running(j, target.Value(), d') && d'.owned == updated && d'.records == recorded &&
            updated.Keys == owned.Keys
    ensures d'.marks == d.marks
    ensures failure.None? ==>
              d'.published == |recorded| && OneMoreRecord(records, recorded, Min(at - j.epoch, U64_MAX))
    ensures failure.Some? ==>
            recorded == records && d'.published == |records| + if failure.value == EvidenceFailed then 1 else 0
    ensures AppliedIff(j, |records|, target.Supports(ResourceOf(j.events[|records|].action)), old(target.Now()), owned,
                       failure)
    ensures Alone(old(target.Now())) ==> Alone(target.Now())
  {
    recorded := records;
    var elapsed := Min(at - j.epoch, U64_MAX);
    assert j.events[|records|].offset <= elapsed;
    var generation;
    failure, updated, generation, d' := AttemptEvent(target, j, at, owned, |records|, d);
    if failure.None? {
      recorded, d' := RecordEvent(target, j, elapsed, generation, records, d');
      failure := if |recorded| == |records| then Some(EvidenceFailed) else None;
    }
  }

  // --- The event loop ---

  /** The run stops before event i: cancellation was requested, the deadline is beyond the clock's horizon,
      or cancellation interrupts the sleep until the deadline. */
  predicate StopsBefore(j: Job, horizon: nat, m: Moment, i: nat)
    requires i < |j.events|
  {
    var deadline := j.epoch + j.events[i].offset;
    m.cancelled || horizon < deadline || (m.checked < deadline && m.interrupted)
  }

  /** When event i is applied: at its deadline or when found overdue, plus the lag of its own moment. */
  function AppliedAt(j: Job, m: Moment, i: nat): nat
    requires i < |j.events|
  {
    Max(m.checked, j.epoch + j.events[i].offset) + m.lag
  }

  /** Wait for a deadline; answers when the wait ended, or that cancellation won. A deadline beyond the
      clock's horizon can only end in cancellation. */
  method WaitForDeadline(epoch: nat, offset: nat, horizon: nat, m: Moment) returns (woke: Option<nat>)
    ensures woke.None? <==> horizon < epoch + offset || (m.checked < epoch + offset && m.interrupted)
    ensures woke.Some? ==> woke.value == Max(m.checked, epoch + offset)
  {
    var deadline := epoch + offset;
    if deadline > horizon {
      return None;
    }
    if m.checked >= deadline {
      return Some(m.checked);
    }
    if m.interrupted {
      return None;
    }
    woke := Some(deadline);
  }

  /** The run did not stop before event i, and applied it at its own time. */
  ghost predicate OnCue(j: Job, horizon: nat, m: Moment, i: nat, x: EventResult)
    requires i < |j.events|
  {
    !StopsBefore(j, horizon, m, i) && x.appliedElapsed == Min(AppliedAt(j, m, i) - j.epoch, U64_MAX)
  }

  ghost predicate AllOnCue(j: Job, horizon: nat, moments: nat -> Moment, records: seq<EventResult>) {
    |records| <= |j.events| &&
      forall i :: 0 <= i < |records| ==> OnCue(j, horizon, moments(i), i, records[i])
  }

  /** How the tape was played: the recorded events are applied on cue, and the run was cancelled exactly if
      it stopped before the next one. */
  ghost predicate Played(j: Job, horizon: nat, moments: nat -> Moment, status: Status, failure: Option<Failure>,
                         records: seq<EventResult>) {
    var n := |records|;
    && AllOnCue(j, horizon, moments, records)
    && (status.Failed? <==> failure.Some?) && (status.Completed? <==> n == |j.events|)
    && (status.Cancelled? <==> n < |j.events| && failure.None? && StopsBefore(j, horizon, moments(n), n))
    && (status.Failed? ==> n < |j.events| && !StopsBefore(j, horizon, moments(n), n))
  }

  lemma {:induction false} CueAppend(j: Job, horizon: nat, moments: nat -> Moment, records: seq<EventResult>,
                                     more: seq<EventResult>)
    requires AllOnCue(j, horizon, moments, records) && records <= more && |more| == |records| + 1 <= |j.events|
    requires OnCue(j, horizon, moments(|records|), |records|, more[|records|])
    ensures AllOnCue(j, horizon, moments, more)
  {
  }

  /** The tape has been played exactly as far as it is recorded. */
  ghost predicate Playing(j: Job, w: World, d: Progress, owned: map<Resource, Owned>, records: seq<EventResult>) {
    && Running(j, w, d) && d.owned == owned && d.records == records && d.published == |records|
    && Covers(j.events, |j.events|, owned)
  }

  /** Unless cancellation comes first, answers when event i is to be applied. */
  method AwaitEvent(j: Job, horizon: nat, m: Moment, i: nat) returns (at: Option<nat>)
    requires i < |j.events|
    ensures at.None? <==> StopsBefore(j, horizon, m, i)
    ensures at.Some? ==> at.value == AppliedAt(j, m, i)
  {
    if m.cancelled {
      return None;
    }
    var woke := WaitForDeadline(j.epoch, j.events[i].offset, horizon, m);
    at := if woke.Some? then Some(woke.value + m.lag) else None;
  }

  /** Wait for the next event and apply it. */
  method PlayEvent(target: PolicyTarget, j: Job, horizon: nat, m: Moment, owned: map<Resource, Owned>,
                   records: seq<EventResult>, ghost d: Progress)
    returns (cancelled: bool, failure: Option<Failure>, updated: map<Resource, Owned>, recorded: seq<EventResult>,
             ghost d': Progress)
    requires Playing(j, target.Value(), d, owned, records) && |records| < |j.events| &&
             j.events[|records|].offset <= U64_MAX
    modifies target
    ensures Running(j, target.Value(), d') && d'.owned == updated && d'.records == recorded
    ensures d'.marks == d.marks && updated.Keys == owned.Keys && (cancelled ==> failure.None?)
    ensures d'.published == |recorded| + if failure == Some(EvidenceFailed) then 1 else 0
    ensures cancelled <==> StopsBefore(j, horizon, m, |records|)
    ensures if cancelled || failure.Some? then recorded == records
            else |recorded| == |records| + 1 && records <= recorded
                 && OnCue(j, horizon, m, |records|, recorded[|records|])
    ensures !cancelled ==> AppliedIff(j, |records|, target.Supports(ResourceOf(j.events[|records|].action)),
                                      old(target.Now()), owned, failure)
    ensures Alone(old(target.Now())) ==> Alone(target.Now())
  {
    var at := AwaitEvent(j, horizon, m, |records|);
    cancelled := at.None?;
    if cancelled {
      return true, None, owned, records, d;
    }
    assert ResourceOf(j.events[|records|].action) in owned;
    failure, updated, recorded, d' := ApplyEvent(target, j, at.value, owned, records, d);
  }

  /** The policies after the first k events, when nobody interferes. */
  ghost function Undisturbed(j: Job, k: nat): (policies: map<Resource, Policy>)
    requires k <= |j.events|
    ensures policies.Keys == j.registry.Keys
  {
    if k == 0 then j.registry
    else
      var (before, e) := (Undisturbed(j, k - 1), j.events[k - 1]);
      var r := ResourceOf(e.action);
      if r !in before then before
      else
        var plan := Effect(e.action, before[r].plan);
        before[r := LivePolicies.Published(before[r].generation + 1, plan, j.seedOf(e.index))]
  }

  /** Event k can be applied to what the events before it leave: its resource is there, and so is what it
      removes; the plan it makes is valid and of the resource's family, and a generation is left. */
  ghost predicate FeasibleAt(j: Job, k: nat)
    requires k < |j.events|
  {
    var (a, before) := (j.events[k].action, Undisturbed(j, k));
    var r := ResourceOf(a);
    && r in before && (Removes(a) ==> a.id in Ids(before[r].plan))
    && Accepts(j.valid, before, r, Effect(a, before[r].plan)) && (r.transport.Stream? ==> Sibling(r) in before)
  }

  /** Nothing stands in the way of the run: every event is feasible, and none is stopped before. */
  ghost predicate Unhindered(j: Job, horizon: nat, moments: nat -> Moment) {
    forall i :: 0 <= i < |j.events| ==> FeasibleAt(j, i) && !StopsBefore(j, horizon, moments(i), i)
  }

  lemma {:induction false} ReplayUndisturbed(j: Job, marks: map<Resource, Mark>, log: seq<Publication>, k: nat)
    requires Faithful(j, marks, log) && Consistent(j.registry, log) && Numbered(log, k) && k <= |j.events|
    requires forall i :: 0 <= i < |log| ==> log[i].source.Tape?
    ensures Replay(j.registry, log) == Undisturbed(j, k)
    decreases |log|
  {
    if log != [] {
      var n := |log| - 1;
      assert log[n].source.Tape? && FaithfulEntry(j, marks, log[n]);
      ReplayUndisturbed(j, marks, log[..n], k - 1);
    }
  }

  lemma {:induction false} NothingTrails(log: seq<Publication>, since: nat, r: Resource)
    requires forall i :: 0 <= i < |log| ==> log[i].source.Tape?
    ensures AccountOf(log, since, r).trailing == 0
    decreases |log|
  {
    if |log| > since {
      NothingTrails(log[..|log| - 1], since, r);
    }
  }

  /** Alone, the run applies every feasible event. */
  lemma {:induction false} AloneApplies(j: Job, s: Stage, d: Progress, failure: Option<Failure>)
    requires Running(j, s.world, d) && Alone(s) && d.published < |j.events| && FeasibleAt(j, d.published)
    requires AppliedIff(j, d.published, true, s, d.owned, failure)
    ensures failure.None?
  {
    var r := ResourceOf(j.events[d.published].action);
    ReplayUndisturbed(j, d.marks, s.world.log, d.published);
    NothingTrails(s.world.log, d.marks[r].since, r);
    assert Tracked(j.strict, s.world, r, d.marks[r], d.owned[r].last);
    AloneShifts(s);
  }

  /** Play the tape. Whatever ends the run, the records are those of the first events, in order; one
      more event than recorded has published only when its evidence could not be read. */
  method PlayTape(target: PolicyTarget, j: Job, horizon: nat, moments: nat -> Moment, owned0: map<Resource, Owned>,
                  ghost d0: Progress)
    returns (status: Status, failure: Option<Failure>, owned: map<Resource, Owned>, records: seq<EventResult>,
             ghost d: Progress)
    requires Playing(j, target.Value(), d0, owned0, [])
    requires forall i :: 0 <= i < |j.events| ==> j.events[i].offset <= U64_MAX
    modifies target
    ensures Running(j, target.Value(), d) && d.owned == owned && d.records == records && d.marks == d0.marks
    ensures owned.Keys == owned0.Keys
    ensures d.published == |records| + if failure == Some(EvidenceFailed) then 1 else 0
    ensures Played(j, horizon, moments, status, failure, records)
    ensures Alone(old(target.Now())) && AllSupported(target, owned0) && Unhindered(j, horizon, moments) ==>
              status.Completed?
  {
    owned, records, failure, d := owned0, [], None, d0;
    while |records| < |j.events|
      invariant Playing(j, target.Value(), d, owned, records) && |records| <= |j.events|
      invariant d.marks == d0.marks && owned.Keys == owned0.Keys && failure.None?
      invariant AllOnCue(j, horizon, moments, records)
      invariant Alone(old(target.Now())) ==> Alone(target.Now())
      decreases |j.events| - |records|
    {
      ghost var s, e := target.Now(), d;
      var cancelled, recorded;
      cancelled, failure, owned, recorded, d := PlayEvent(target, j, horizon, moments(|records|), owned, records, d);
      if Alone(s) && AllSupported(target, owned0) && Unhindered(j, horizon, moments) {
        AloneApplies(j, s, e, failure);
      }
      if cancelled || failure.Some? {
        status := if cancelled then Cancelled else Failed;
        return;
      }
      CueAppend(j, horizon, moments, records, recorded);
      records := recorded;
    }
    status := Completed;
  }

  // --- Cleanup ---

  /** What cleaning up r may do to the other resources: no more than other publishers may. */
  ghost predicate Others(w: World, u: World, marks: map<Resource, Mark>, r: Resource) {
    && u.valid == w.valid && u.policies.Keys == w.policies.Keys
    && (forall q <- w.policies :: Later(w.policies[q], u.policies[q]))
    && (forall q <- marks | q != r :: Untouched(w, u, marks[q], q))
  }

  lemma {:induction false} OthersThen(w: World, u: World, v: World, marks: map<Resource, Mark>, r: Resource)
    requires Drift(w, u, marks) && Others(u, v, marks, r)
    ensures Others(w, v, marks, r)
  {
  }

  /** What a guarded restore of one resource does: it publishes only while the run still owns the
      resource's generation, and never overwrites anyone else. */
  ghost function Restoration(supported: bool, s: Stage, r: Resource, entry: Owned, namespace: nat)
    : (Stage, CleanupOutcome)
  {
    var s1 := Shift(s);
    if !supported || r !in s1.world.policies then (s1, Missing)
    else if s1.world.policies[r].generation != entry.last then (s1, Conflict)
    else
      var s2 := Shift(s1);
      if Accepts(s2.world.valid, s2.world.policies, r, entry.initialPlan) &&
        s2.world.policies[r].generation == entry.last
      then (s2.(world := Install(s2.world, Restore, r, entry.initialPlan, namespace)), Restored)
      else (s2, Conflict)
  }

  method RestoreTarget(target: PolicyTarget, r: Resource, entry: Owned, namespace: nat)
    returns (outcome: CleanupOutcome)
    modifies target
    ensures (target.Now(), outcome)
         == Restoration(target.Supports(r), old(target.Now()), r, entry, namespace)
  {
    var current := target.CurrentGeneration(r);
    if current.Err? {
      return Missing;
    }
    if current.value != entry.last {
      return Conflict;
    }
    var g := target.Publish(r, current.value, entry.initialPlan, namespace, Restore);
    outcome := if g.Ok? then Restored else Conflict;
  }

  /** Restoring the resources listed in `order`, one after the other. */
  ghost function RestoreEach(s: Stage, owned: map<Resource, Owned>, order: seq<Resource>, namespace: nat)
    : (Stage, map<Resource, CleanupOutcome>)
    requires Elements(order) <= owned.Keys
  {
    if order == [] then (s, map[])
    else
      var r := order[|order| - 1];
      var (before, outcomes) := RestoreEach(s, owned, order[..|order| - 1], namespace);
      var (after, outcome) := Restoration(true, before, r, owned[r], namespace);
      (after, outcomes[r := outcome])
  }

  /** The keys of a map, listed in some order. */
  method Listed(owned: map<Resource, Owned>) returns (order: seq<Resource>)
    ensures Distinct(order) && Elements(order) == owned.Keys
  {
    order := [];
    var rest := owned.Keys;
    while rest != {}
      invariant Distinct(order) && Elements(order) !! rest && Elements(order) + rest == owned.Keys
      decreases |rest|
    {
      var r :| r in rest;
      ListedStep(order, r);
      MoveKey(Elements(order), rest, r);
      order := order + [r];
      rest := rest - {r};
    }
  }

  lemma {:induction false} MoveKey(a: set<Resource>, rest: set<Resource>, r: Resource)
    requires a !! rest && r in rest
    ensures (a + {r}) !! (rest - {r}) && (a + {r}) + (rest - {r}) == a + rest && |rest - {r}| < |rest|
  {
  }

  lemma {:induction false} ListedStep(order: seq<Resource>, r: Resource)
    requires Distinct(order) && r !in Elements(order)
    ensures Distinct(order + [r]) && Elements(order + [r]) == Elements(order) + {r}
  {
    assert (order + [r])[..|order|] == order;
  }

  /** Restore every owned resource, in some order. */
  method RestoreAll(target: PolicyTarget, owned: map<Resource, Owned>, namespace: nat)
    returns (outcomes: map<Resource, CleanupOutcome>, ghost order: seq<Resource>)
    requires AllSupported(target, owned)
    modifies target
    ensures Distinct(order) && Elements(order) == owned.Keys
    ensures (target.Now(), outcomes)
         == RestoreEach(old(target.Now()), owned, order, namespace)
  {
    var entries := Listed(owned);
    outcomes, order := map[], entries;
    for i := 0 to |entries|
      invariant Elements(entries[..i]) <= owned.Keys
      invariant (target.Now(), outcomes)
             == RestoreEach(old(target.Now()), owned, entries[..i], namespace)
    {
      ElementsPrefix(entries, i + 1);
      assert entries[..i + 1][..i] == entries[..i];
      var outcome := RestoreTarget(target, entries[i], owned[entries[i]], namespace);
      outcomes := outcomes[entries[i] := outcome];
    }
    assert entries[..|entries|] == entries;
  }

  lemma {:induction false} ElementsPrefix(order: seq<Resource>, n: nat)
    requires n <= |order|
    ensures Elements(order[..n]) <= Elements(order)
    ensures n > 0 ==> order[n - 1] in Elements(order[..n])
    decreases |order| - n
  {
    if n == |order| {
      assert order[..n] == order;
    } else {
      ElementsPrefix(order, n + 1);
      assert order[..n + 1][..n] == order[..n];
    }
  }

  ghost function Elements(order: seq<Resource>): set<Resource> {
    if order == [] then {} else Elements(order[..|order| - 1]) + {order[|order| - 1]}
  }

  ghost predicate Distinct(order: seq<Resource>) {
    order == [] || (Distinct(order[..|order| - 1]) && order[|order| - 1] !in Elements(order[..|order| - 1]))
  }

  lemma {:induction false} RestoreKeeps(j: Job, w: World, d: Progress, r: Resource)
    requires RunOk(j, w, d) && r in d.owned && w.policies[r].generation == d.owned[r].last
    requires Accepts(w.valid, w.policies, r, d.owned[r].initialPlan)
    ensures var u := Install(w, Restore, r, d.owned[r].initialPlan, j.seedOf(|j.events|));
            RunOk(j, u, Advanced(d, w, Restore, r)) && Others(w, u, d.marks, r) &&
              RestoredLast(u.log, d.marks[r].since, r)
  {
    OwnKeeps(j, w, d, Restore, r, d.marks[r].policy.plan, j.seedOf(|j.events|));
  }

  /** Not restored: somebody else moved r, or it has no generation left. */
  lemma {:induction false} ConflictOk(j: Job, w: World, u: World, d: Progress, r: Resource)
    requires RunOk(j, u, d) && Drift(w, u, d.marks) && r in d.owned && !RestoredLast(w.log, d.marks[r].since, r)
    requires r in u.policies &&
             (u.policies[r].generation != d.owned[r].last || !Accepts(u.valid, u.policies, r, d.owned[r].initialPlan))
    ensures CleanedOk(j, w, u, d, r, Conflict)
  {
    ConflictDeserved(j, w, u, d, r);
    DriftOthers(w, u, d.marks, r);
  }

  lemma {:induction false} ConflictDeserved(j: Job, w: World, u: World, d: Progress, r: Resource)
    requires WorldOk(u) && OwnersOk(j, u, d) && Drift(w, u, d.marks) && r in d.owned
    requires !RestoredLast(w.log, d.marks[r].since, r) && r in u.policies
    requires u.policies[r].generation != d.owned[r].last || !Accepts(u.valid, u.policies, r, d.owned[r].initialPlan)
    ensures OutcomeOk(u, r, d.marks[r], Conflict)
  {
    assert Tracked(j.strict, u, r, d.marks[r], d.owned[r].last);
  }

  lemma {:induction false} DriftOthers(w: World, u: World, marks: map<Resource, Mark>, r: Resource)
    requires Drift(w, u, marks)
    ensures Others(w, u, marks, r)
  {
  }

  lemma {:induction false} RestoredOk(j: Job, w: World, u: World, d: Progress, r: Resource)
    requires RunOk(j, u, d) && Drift(w, u, d.marks) && r in d.owned
    requires r in u.policies && u.policies[r].generation == d.owned[r].last &&
             Accepts(u.valid, u.policies, r, d.owned[r].initialPlan)
    ensures CleanedOk(j, w, Install(u, Restore, r, d.owned[r].initialPlan, j.seedOf(|j.events|)), d, r, Restored)
  {
    RestoreKeeps(j, u, d, r);
    OthersThen(w, u, Install(u, Restore, r, d.owned[r].initialPlan, j.seedOf(|j.events|)), d.marks, r);
  }

  /** What cleaning up r leaves behind, starting from w. */
  ghost predicate CleanedOk(j: Job, w: World, t: World, d: Progress, r: Resource, outcome: CleanupOutcome)
    requires r in d.owned && r in d.marks
  {
    && r in t.policies && RunOk(j, t, Closed(d, t, r, outcome)) && Others(w, t, d.marks, r)
    && OutcomeOk(t, r, d.marks[r], outcome) && (outcome.Restored? || outcome.Conflict?)
  }

  /** Progress after cleaning up r. */
  ghost function Closed(d: Progress, w: World, r: Resource, outcome: CleanupOutcome): Progress
    requires r in d.owned && r in w.policies
  {
    if outcome.Restored? then d.(owned := d.owned[r := d.owned[r].(last := w.policies[r].generation)]) else d
  }

  lemma {:induction false} ShiftKeeps(j: Job, s: Stage, d: Progress, r: Resource)
    requires RunOk(j, s.world, d) && r in d.owned
    ensures var t := Shift(s); RunOk(j, t.world, d) && Drift(s.world, t.world, d.marks) && r in t.world.policies
  {
    MovedKeeps(j, s.world, d, s.rivals);
    assert Tracked(j.strict, s.world, r, d.marks[r], d.owned[r].last);
  }

  lemma {:induction false} RestorationKeeps(j: Job, s: Stage, d: Progress, r: Resource)
    requires RunOk(j, s.world, d) && r in d.owned && !RestoredLast(s.world.log, d.marks[r].since, r)
    ensures var (t, outcome) := Restoration(true, s, r, d.owned[r], j.seedOf(|j.events|));
            CleanedOk(j, s.world, t.world, d, r, outcome)
  {
    var s1, s2 := Shift(s), Shift(Shift(s));
    ShiftKeeps(j, s, d, r);
    if s1.world.policies[r].generation != d.owned[r].last {
      ConflictOk(j, s.world, s1.world, d, r);
    } else {
      ShiftKeeps(j, s1, d, r);
      DriftTrans(s.world, s1.world, s2.world, d.marks);
      if Accepts(s2.world.valid, s2.world.policies, r, d.owned[r].initialPlan) &&
        s2.world.policies[r].generation == d.owned[r].last {
        RestoredOk(j, s.world, s2.world, d, r);
      } else {
        ConflictOk(j, s.world, s2.world, d, r);
      }
    }
  }

  /** Every resource of `outcomes` carries its outcome; the other owned ones are as the tape left them. */
  ghost predicate Cleaning(w: World, d: Progress, owned: map<Resource, Owned>,
                           outcomes: map<Resource, CleanupOutcome>) {
    && d.marks.Keys == owned.Keys && AllCleaned(w, d.marks, outcomes)
    && (forall r <- owned | r !in outcomes :: Uncleaned(w, d, owned, r))
  }

  ghost predicate Uncleaned(w: World, d: Progress, owned: map<Resource, Owned>, r: Resource) {
    r in owned && r in d.owned && r in d.marks && d.owned[r] == owned[r] && !RestoredLast(w.log, d.marks[r].since, r)
  }

  ghost predicate AllCleaned(w: World, marks: map<Resource, Mark>, outcomes: map<Resource, CleanupOutcome>) {
    forall r <- outcomes :: r in marks && OutcomeOk(w, r, marks[r], outcomes[r])
  }

  /** Cleaning up r keeps the outcomes reached so far, and leaves the others untouched. */
  lemma {:induction false} CleaningStep(w: World, t: World, d: Progress, owned: map<Resource, Owned>,
                     outcomes: map<Resource, CleanupOutcome>,
                     r: Resource, outcome: CleanupOutcome)
    requires Cleaning(w, d, owned, outcomes) && r in d.owned && r in t.policies && r in d.marks && r !in outcomes
    requires Others(w, t, d.marks, r) && WorldOk(t) && OutcomeOk(t, r, d.marks[r], outcome)
    ensures Cleaning(t, Closed(d, t, r, outcome), owned, outcomes[r := outcome])
  {
    OutcomesStay(w, t, d.marks, outcomes, r);
    var e := Closed(d, t, r, outcome);
    forall q | q in owned && q !in outcomes[r := outcome] ensures Uncleaned(t, e, owned, q) {
      assert Uncleaned(w, d, owned, q) && Untouched(w, t, d.marks[q], q);
    }
  }

  lemma {:induction false} OutcomesStay(w: World, t: World, marks: map<Resource, Mark>,
                                        outcomes: map<Resource, CleanupOutcome>,
                     r: Resource)
    requires AllCleaned(w, marks, outcomes) && Others(w, t, marks, r) && WorldOk(t) && r !in outcomes
    ensures AllCleaned(t, marks, outcomes)
  {
    forall q | q in outcomes ensures OutcomeOk(t, q, marks[q], outcomes[q]) {
      OutcomeKeeps(w, t, q, marks[q], outcomes[q]);
    }
  }

  /** One more resource of the order. */
  lemma {:induction false} RestoreStep(j: Job, s: Stage, d: Progress, owned: map<Resource, Owned>,
                                       outcomes: map<Resource, CleanupOutcome>,
                    r: Resource)
    requires RunOk(j, s.world, d) && Cleaning(s.world, d, owned, outcomes) && r in owned && r !in outcomes
    ensures var (t, outcome) := Restoration(true, s, r, owned[r], j.seedOf(|j.events|));
            && r in d.owned && r in t.world.policies && (outcome.Restored? || outcome.Conflict?)
            && RunOk(j, t.world, Closed(d, t.world, r, outcome))
            && Cleaning(t.world, Closed(d, t.world, r, outcome), owned, outcomes[r := outcome])
  {
    assert Uncleaned(s.world, d, owned, r);
    RestorationKeeps(j, s, d, r);
    var (t, outcome) := Restoration(true, s, r, owned[r], j.seedOf(|j.events|));
    CleaningStep(s.world, t.world, d, owned, outcomes, r, outcome);
  }

  ghost predicate Attempted(outcomes: map<Resource, CleanupOutcome>) {
    forall r <- outcomes :: outcomes[r].Restored? || outcomes[r].Conflict?
  }

  /** After restoring the resources of `order`. */
  ghost predicate EachOk(j: Job, d: Progress, owned: map<Resource, Owned>, done: set<Resource>,
                         r: (Stage, map<Resource, CleanupOutcome>), e: Progress) {
    && RunOk(j, r.0.world, e) && Cleaning(r.0.world, e, owned, r.1) && e == d.(owned := e.owned)
    && r.1.Keys == done && Attempted(r.1)
  }

  lemma {:induction false} EachStep(j: Job, d: Progress, owned: map<Resource, Owned>, done: set<Resource>, s: Stage,
                 outcomes: map<Resource, CleanupOutcome>,
                 e: Progress, r: Resource) returns (f: Progress)
    requires EachOk(j, d, owned, done, (s, outcomes), e) && r in owned && r !in done
    ensures var (t, outcome) := Restoration(true, s, r, owned[r], j.seedOf(|j.events|));
            EachOk(j, d, owned, done + {r}, (t, outcomes[r := outcome]), f)
  {
    RestoreStep(j, s, e, owned, outcomes, r);
    var (t, outcome) := Restoration(true, s, r, owned[r], j.seedOf(|j.events|));
    f := Closed(e, t.world, r, outcome);
    OneMore(outcomes, done, r, outcome);
  }

  lemma {:induction false} OneMore(outcomes: map<Resource, CleanupOutcome>, done: set<Resource>, r: Resource,
                                   outcome: CleanupOutcome)
    requires Attempted(outcomes) && (outcome.Restored? || outcome.Conflict?) && outcomes.Keys == done
    ensures Attempted(outcomes[r := outcome]) && outcomes[r := outcome].Keys == done + {r}
  {
  }

  /** Cleanup against any interference: every resource gets the outcome it deserves. */
  lemma {:induction false} RestoreEachKeeps(j: Job, s: Stage, d: Progress, owned: map<Resource, Owned>,
                                            order: seq<Resource>) returns (e: Progress)
    requires RunOk(j, s.world, d) && Cleaning(s.world, d, owned, map[]) && Distinct(order) &&
             Elements(order) <= owned.Keys
    ensures EachOk(j, d, owned, Elements(order), RestoreEach(s, owned, order, j.seedOf(|j.events|)), e)
    decreases |order|
  {
    if order == [] {
      e := d;
    } else {
      var n := |order| - 1;
      var f := RestoreEachKeeps(j, s, d, owned, order[..n]);
      var before := RestoreEach(s, owned, order[..n], j.seedOf(|j.events|));
      e := EachStep(j, d, owned, Elements(order[..n]), before.0, before.1, f, order[n]);
    }
  }

  lemma {:induction false} StartCleaning(j: Job, w: World, d: Progress)
    requires Running(j, w, d)
    ensures Cleaning(w, d, d.owned, map[])
    ensures AllCleaned(w, d.marks, map r | r in d.owned :: NotRequested)
  {
    forall r | r in d.owned ensures Uncleaned(w, d, d.owned, r) {
      assert Open(j, w, d, r);
    }
  }

  /** Restoring everything, from the end of the tape. */
  lemma {:induction false} RestoreAllKeeps(j: Job, s: Stage, d: Progress, order: seq<Resource>) returns (e: Progress)
    requires Running(j, s.world, d) && Distinct(order) && Elements(order) == d.owned.Keys
    ensures var (t, outcomes) := RestoreEach(s, d.owned, order, j.seedOf(|j.events|));
            && RunOk(j, t.world, e) && e == d.(owned := e.owned) && AllCleaned(t.world, d.marks, outcomes)
            && outcomes.Keys == d.owned.Keys && Attempted(outcomes)
  {
    StartCleaning(j, s.world, d);
    e := RestoreEachKeeps(j, s, d, d.owned, order);
  }

  /** `restore-initial` restores each owned resource, `leave` publishes nothing. */
  method RunCleanup(target: PolicyTarget, j: Job, cleanup: Cleanup, owned: map<Resource, Owned>, ghost d: Progress)
    returns (outcomes: map<Resource, CleanupOutcome>, ghost d': Progress)
    requires Running(j, target.Value(), d) && d.owned == owned && AllSupported(target, owned)
    modifies target
    ensures RunOk(j, target.Value(), d') && d' == d.(owned := d'.owned)
    ensures outcomes.Keys == owned.Keys && AllCleaned(target.Value(), d.marks, outcomes)
    ensures cleanup.RestoreInitial? ==> Attempted(outcomes)
    ensures cleanup.Leave? ==> outcomes == (map r | r in owned :: NotRequested)
    ensures cleanup.Leave? ==> Running(j, target.Value(), d') && target.Value() == old(target.Value())
  {
    if cleanup.RestoreInitial? {
      ghost var s := target.Now();
      ghost var order;
      outcomes, order := RestoreAll(target, owned, j.seedOf(|j.events|));
      d' := RestoreAllKeeps(j, s, d, order);
    } else {
      StartCleaning(j, target.Value(), d);
      d' := d;
      outcomes := map r | r in owned :: NotRequested;
    }
  }

  // --- Whole runs ---

  /** What a run reports, against what it did. */
  ghost predicate ReportOk(j: Job, cleanup: Cleanup, w: World, d: Progress, rep: Report) {
    && RunOk(j, w, d) && Covers(j.events, |j.events|, d.owned)
    && rep.records == d.records && rep.applied == |rep.records| <= |j.events|
    && d.published == rep.applied + (if rep.failure == Some(EvidenceFailed) then 1 else 0)
    && (rep.status.Failed? <==> rep.failure.Some?) && (rep.status.Completed? ==> rep.applied == |j.events|)
    && rep.cleanup.Keys == d.marks.Keys && AllCleaned(w, d.marks, rep.cleanup)
    && (if cleanup.Leave? then AllOpen(j, w, d) else Attempted(rep.cleanup))
  }

  /** Play the tape, then clean up whatever the outcome. */
  method Drive(target: PolicyTarget, j: Job, cleanup: Cleanup, horizon: nat, moments: nat -> Moment,
               owned0: map<Resource, Owned>, ghost d0: Progress)
    returns (rep: Report, ghost d: Progress)
    requires Preparing(target, j, target.Value(), d0, |j.events|) && d0.owned == owned0
    requires forall i :: 0 <= i < |j.events| ==> j.events[i].offset <= U64_MAX
    modifies target
    ensures ReportOk(j, cleanup, target.Value(), d, rep)
    ensures Played(j, horizon, moments, rep.status, rep.failure, rep.records)
    ensures Alone(old(target.Now())) && Unhindered(j, horizon, moments) ==> rep.status.Completed?
  {
    var status, failure, owned, records;
    status, failure, owned, records, d := PlayTape(target, j, horizon, moments, owned0, d0);
    ghost var played := d;
    var outcomes;
    outcomes, d := RunCleanup(target, j, cleanup, owned, played);
    rep := Report(status, failure, |records|, records, outcomes);
    assert d.owned.Keys == owned.Keys == owned0.Keys;
  }

  function JobOf(c: Compiled, seedOf: nat -> nat, epoch: nat, registry: map<Resource, Policy>): Job {
    Job(c.events, c.isolation.Strict?, seedOf, epoch, registry, VALIDITY)
  }

  /** The target supports whatever the events touch. */
  ghost predicate Served(stream: bool, datagram: bool, events: seq<Event>) {
    forall i :: 0 <= i < |events| ==> if ResourceOf(events[i].action).transport.Stream? then stream else datagram
  }

  /** A whole run on a registry shared with any other publishers. Nothing is published unless every
      touched resource could be prepared. A run that nobody interferes with and nothing stands in the way of
      completes. */
  method Execute(stream: bool, datagram: bool, registry: map<Resource, Policy>, rivals: seq<seq<Edit>>, c: Compiled,
                 seedOf: nat -> nat, epoch: nat, horizon: nat, moments: nat -> Moment)
    returns (rep: Option<Report>, policies: map<Resource, Policy>, ghost log: seq<Publication>, ghost d: Progress)
    requires WorldOk(World(registry, [], VALIDITY)) &&
             (forall i :: 0 <= i < |c.events| ==> c.events[i].offset <= U64_MAX)
    ensures rep.None? ==>
            Running(JobOf(c, seedOf, epoch, registry), World(policies, log, VALIDITY), d) && AllExternal(log)
    ensures rep.Some? ==>
            && ReportOk(JobOf(c, seedOf, epoch, registry), c.cleanup, World(policies, log, VALIDITY), d, rep.value)
            && Played(JobOf(c, seedOf, epoch, registry), horizon, moments, rep.value.status, rep.value.failure,
                      rep.value.records)
    ensures rivals == [] && Served(stream, datagram, c.events) &&
            Unhindered(JobOf(c, seedOf, epoch, registry), horizon, moments) ==>
              rep.Some? && rep.value.status.Completed?
  {
    var target := new PolicyTarget(stream, datagram, VALIDITY, registry, rivals);
    var j := JobOf(c, seedOf, epoch, registry);
    var owned;
    ghost var culprit;
    owned, d, culprit := PrepareInitial(target, j);
    if owned.Err? {
      assert Unhindered(j, horizon, moments) ==> FeasibleAt(j, culprit);
      return None, target.policies, target.log, d;
    }
    var x;
    x, d := Drive(target, j, c.cleanup, horizon, moments, owned.value, d);
    return Some(x), target.policies, target.log, d;
  }

  /** Compile a schedule and run it. */
  method RunSchedule(stream: bool, datagram: bool, registry: map<Resource, Policy>, rivals: seq<seq<Edit>>,
                     source: Compiler.Source,
                     seedOf: nat -> nat, epoch: nat, horizon: nat, moments: nat -> Moment)
    returns (compiled: Compiler.Result, rep: Option<Report>, policies: map<Resource, Policy>,
             ghost log: seq<Publication>, ghost d: Progress)
    requires WorldOk(World(registry, [], VALIDITY))
    ensures compiled.Ok? <==> Compiler.Compilable(source)
    ensures compiled.Err? ==> rep.None? && policies == registry
    ensures rep.None? ==> AllExternal(log)
    ensures compiled.Ok? && rep.Some? ==>
              && ReportOk(JobOf(Compiler.Output(source), seedOf, epoch, registry), source.cleanup,
                          World(policies, log, VALIDITY), d, rep.value)
              && Played(JobOf(Compiler.Output(source), seedOf, epoch, registry), horizon, moments, rep.value.status,
                        rep.value.failure, rep.value.records)
    ensures compiled.Ok? && rivals == [] && Served(stream, datagram, Compiler.Output(source).events) &&
            Unhindered(JobOf(Compiler.Output(source), seedOf, epoch, registry), horizon, moments) ==>
              rep.Some? && rep.value.status.Completed?
  {
    compiled := Compiler.CompileSchedule(source);
    if compiled.Err? {
      return compiled, None, registry, [], Progress(map[], map[], 0, []);
    }
    Compiler.OffsetsFit(source);
    rep, policies, log, d :=
      Execute(stream, datagram, registry, rivals, compiled.compiled, seedOf, epoch, horizon, moments);
  }
}
