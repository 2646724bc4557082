/** What the schedule driver keeps while it shares its target with other publishers: who published
    what to each resource since preparation, and what the run may conclude from it. */
module DriverProofs {
  import opened Common
  import opened Schedule
  import opened PolicyTargets
  import LivePolicies

  /** Ownership of one resource: the last generation this run published (or found), and the plan to
      restore. */
  datatype Owned = Owned(last: nat, initialPlan: TargetPlan)

  /** Where in the log a resource was prepared, and what it was then. */
  datatype Mark = Mark(since: nat, policy: Policy)

  /** The fixed part of one run: its tape, mode, namespaces by event index, epoch, the registry it starts
      from, and plan validation. */
  datatype Job = Job(events: seq<Event>, strict: bool, seedOf: nat -> nat, epoch: nat, registry: map<Resource, Policy>,
                     valid: TargetPlan -> bool)

  datatype EventResult = EventResult(
    index: nat, phase: PhaseId, scheduledOffset: nat, appliedElapsed: nat, lateBy: nat, action: string,
      resource: Resource,
    upstream: nat, downstream: nat, global: nat)

  /** The moving part of one run. */
  datatype Progress = Progress(
    owned: map<Resource, Owned>, marks: map<Resource, Mark>, published: nat, records: seq<EventResult>)

  // --- Reading the log ---

  /** What the log says about one resource since some point: how often the run published to it and how
      often others did, how often others did since the run last did, whether the run always found
      nobody else had published before it, and the run's last publication. */
  datatype Account = Account(own: nat, external: nat, trailing: nat, isolated: bool, last: Option<Publication>)

  ghost function Enter(a: Account, p: Publication, r: Resource): Account {
    if p.resource != r then a
    else if p.source.External? then a.(external := a.external + 1, trailing := a.trailing + 1)
    else Account(a.own + 1, a.external, 0, a.isolated && a.external == 0, Some(p))
  }

  ghost function AccountOf(log: seq<Publication>, since: nat, r: Resource): Account {
    if |log| <= since then Account(0, 0, 0, true, None)
    else Enter(AccountOf(log[..|log| - 1], since, r), log[|log| - 1], r)
  }

  /** What r was when the run last published to it, or when it was prepared. */
  ghost function LastPolicy(log: seq<Publication>, r: Resource, m: Mark): Policy {
    var last := AccountOf(log, m.since, r).last;
    if last.Some? then last.value.next else m.policy
  }

  ghost predicate RestoredLast(log: seq<Publication>, since: nat, r: Resource) {
    var last := AccountOf(log, since, r).last;
    last.Some? && last.value.source.Restore?
  }

  /** The events that published are 0, 1, ..., k - 1, in this order. */
  ghost predicate Numbered(log: seq<Publication>, k: nat) {
    if log == [] then k == 0
    else
      var last := log[|log| - 1];
      if last.source.Tape? then k > 0 && last.source.position == k - 1 && Numbered(log[..|log| - 1], k - 1)
      else Numbered(log[..|log| - 1], k)
  }

  /** The generation event i published. */
  ghost function GenerationOf(log: seq<Publication>, i: nat): nat {
    if log == [] then 0
    else
      var last := log[|log| - 1];
      if last.source.Tape? && last.source.position == i then last.next.generation else GenerationOf(log[..|log| - 1], i)
  }

  // --- What holds of every publication ---

  /** An event publishes, at its deadline or later, exactly what its action makes of the very policy it
      replaces; cleanup publishes the prepared plan. */
  ghost predicate FaithfulEntry(j: Job, marks: map<Resource, Mark>, e: Publication) {
    && e.next.generation == e.base.generation + 1
    && match e.source
       case External => true
       case Tape(i, at) =>
         && i < |j.events| && e.resource == ResourceOf(j.events[i].action)
         && e.next.plan == Effect(j.events[i].action, e.base.plan)
         && e.next.namespace == j.seedOf(j.events[i].index)
         && j.epoch + j.events[i].offset <= at
       case Restore =>
         && e.resource in marks && e.next.plan == marks[e.resource].policy.plan
         && e.next.namespace == j.seedOf(|j.events|)
  }

  ghost predicate Faithful(j: Job, marks: map<Resource, Mark>, log: seq<Publication>) {
    forall i :: 0 <= i < |log| ==> FaithfulEntry(j, marks, log[i])
  }

  /** Every current plan is publishable, at a 64-bit generation. */
  ghost predicate WorldOk(w: World) {
    forall r <- w.policies :: Fits(w.valid, r, w.policies[r].plan) && w.policies[r].generation <= U64_MAX
  }

  /** The policies after the logged publications. */
  ghost function Replay(registry: map<Resource, Policy>, log: seq<Publication>): map<Resource, Policy> {
    if log == [] then registry
    else
      var last := log[|log| - 1];
      Replay(registry, log[..|log| - 1])[last.resource := last.next]
  }

  /** Every publication replaced exactly the policy that was current. */
  ghost predicate Consistent(registry: map<Resource, Policy>, log: seq<Publication>) {
    log == [] || (Consistent(registry, log[..|log| - 1]) &&
                  Replaces(Replay(registry, log[..|log| - 1]), log[|log| - 1]))
  }

  ghost predicate Replaces(policies: map<Resource, Policy>, e: Publication) {
    e.resource in policies && policies[e.resource] == e.base
  }

  ghost predicate HistoryOk(registry: map<Resource, Policy>, w: World) {
    w.policies == Replay(registry, w.log) && Consistent(registry, w.log)
  }

  lemma {:induction false} HistoryStep(registry: map<Resource, Policy>, w: World, source: Source, r: Resource,
                                       plan: TargetPlan,
                    namespace: nat)
    requires HistoryOk(registry, w) && r in w.policies
    ensures HistoryOk(registry, Install(w, source, r, plan, namespace))
  {
    assert Install(w, source, r, plan, namespace).log[..|w.log|] == w.log;
  }

  lemma {:induction false} ConsistentAt(registry: map<Resource, Policy>, log: seq<Publication>, i: nat)
    requires Consistent(registry, log) && i < |log|
    ensures Replaces(Replay(registry, log[..i]), log[i])
  {
    var n := |log| - 1;
    if i < n {
      ConsistentAt(registry, log[..n], i);
      assert log[..n][..i] == log[..i];
    }
  }

  // --- What holds of every owned resource ---

  /** The owned generation is that of the run's last publication; the resource has moved on by exactly
      the external publications since. In strict mode the run has published only while nobody else
      had, so its generations are consecutive. */
  ghost predicate Tracked(strict: bool, w: World, r: Resource, m: Mark, last: nat) {
    var a := AccountOf(w.log, m.since, r);
    && r in w.policies && m.since <= |w.log|
    && LastPolicy(w.log, r, m).generation == last
    && w.policies[r].generation == last + a.trailing
    && (a.trailing == 0 ==> w.policies[r] == LastPolicy(w.log, r, m))
    && (strict ==> a.isolated && last == m.policy.generation + a.own && a.external == a.trailing)
  }

  lemma {:induction false} TrackedStep(strict: bool, w: World, r: Resource, m: Mark, last: nat,
                    source: Source, r0: Resource, plan: TargetPlan, namespace: nat)
    requires Tracked(strict, w, r, m, last) && r0 in w.policies
    requires strict && r == r0 && !source.External? ==> w.policies[r].generation == last
    ensures var u := Install(w, source, r0, plan, namespace);
            var own := r == r0 && !source.External?;
            && Tracked(strict, u, r, m, if own then w.policies[r].generation + 1 else last)
            && AccountOf(u.log, m.since, r).last == (if own then Some(u.log[|w.log|])
                                                     else AccountOf(w.log, m.since, r).last)
            && (own || AccountOf(w.log, m.since, r).trailing <= AccountOf(u.log, m.since, r).trailing)
  {
    var u := Install(w, source, r0, plan, namespace);
    assert u.log[..|w.log|] == w.log;
  }

  // --- The whole run ---

  ghost predicate RecordOk(j: Job, log: seq<Publication>, i: nat, rec: EventResult)
    requires i < |j.events|
  {
    var e := j.events[i];
    && rec.index == e.index && rec.phase == e.phase && rec.scheduledOffset == e.offset
    && rec.action == ActionName(e.action) && rec.resource == ResourceOf(e.action)
    && e.offset <= rec.appliedElapsed && rec.lateBy == rec.appliedElapsed - e.offset
    && (if rec.resource.direction.Upstream? then rec.upstream else rec.downstream) == GenerationOf(log, i)
  }

  ghost predicate RecordsOk(j: Job, log: seq<Publication>, records: seq<EventResult>) {
    |records| <= |j.events| && (forall i :: 0 <= i < |records| ==> RecordOk(j, log, i, records[i]))
  }

  ghost predicate LogOk(j: Job, log: seq<Publication>, d: Progress) {
    && Faithful(j, d.marks, log) && Numbered(log, d.published)
    && |d.records| <= d.published <= |j.events| && RecordsOk(j, log, d.records)
  }

  ghost predicate OwnersOk(j: Job, w: World, d: Progress) {
    && d.owned.Keys == d.marks.Keys
    && (forall r <- d.owned :: Tracked(j.strict, w, r, d.marks[r], d.owned[r].last)
                               && d.owned[r].initialPlan == d.marks[r].policy.plan &&
                                  Fits(w.valid, r, d.owned[r].initialPlan))
  }

  ghost predicate RunOk(j: Job, w: World, d: Progress) {
    w.valid == j.valid && WorldOk(w) && HistoryOk(j.registry, w) && LogOk(j, w.log, d) && OwnersOk(j, w, d)
  }

  /** In strict mode the run's last publication to r is the fold of the events applied so far. */
  ghost predicate FoldOk(j: Job, w: World, d: Progress, r: Resource)
    requires r in d.marks && d.published <= |j.events|
  {
    j.strict ==> LastPolicy(w.log, r, d.marks[r]).plan == Fold(j.events[..d.published], r, d.marks[r].policy.plan)
  }

  lemma {:induction false} GenerationStays(log: seq<Publication>, e: Publication, i: nat)
    requires !(e.source.Tape? && e.source.position == i)
    ensures GenerationOf(log + [e], i) == GenerationOf(log, i)
  {
    assert (log + [e])[..|log|] == log;
  }

  /** Appending a faithful publication keeps the log in order. */
  lemma {:induction false} LogStep(j: Job, log: seq<Publication>, d: Progress, e: Publication)
    requires LogOk(j, log, d) && FaithfulEntry(j, d.marks, e)
    requires e.source.Tape? ==> e.source.position == d.published
    ensures LogOk(j, log + [e], d.(published := if e.source.Tape? then d.published + 1 else d.published))
  {
    assert (log + [e])[..|log|] == log;
    forall i | 0 <= i < |d.records| ensures RecordOk(j, log + [e], i, d.records[i]) {
      GenerationStays(log, e, i);
      assert RecordOk(j, log, i, d.records[i]);
    }
  }

  /** What one publication leaves alone. */
  ghost predicate Untouched(w: World, u: World, m: Mark, r: Resource) {
    AccountOf(u.log, m.since, r).last == AccountOf(w.log, m.since, r).last &&
      AccountOf(w.log, m.since, r).trailing <= AccountOf(u.log, m.since, r).trailing
  }

  /** A policy only ever moves on to later generations. */
  ghost predicate Later(p: Policy, q: Policy) { p == q || p.generation < q.generation }

  /** What others may do to the run's world: move policies on, never touch what the run published. */
  ghost predicate Drift(w: World, u: World, marks: map<Resource, Mark>) {
    && u.valid == w.valid && u.policies.Keys == w.policies.Keys && |w.log| <= |u.log|
    && (forall r <- w.policies :: Later(w.policies[r], u.policies[r]))
    && (forall r <- marks :: Untouched(w, u, marks[r], r))
  }

  lemma {:induction false} EditKeeps(j: Job, w: World, d: Progress, e: Edit)
    requires RunOk(j, w, d)
    ensures RunOk(j, EditOne(w, e), d) && Drift(w, EditOne(w, e), d.marks)
  {
    if Accepts(w.valid, w.policies, e.resource, e.plan) {
      var u := EditOne(w, e);
      HistoryStep(j.registry, w, External, e.resource, e.plan, e.namespace);
      LogStep(j, w.log, d, u.log[|w.log|]);
      forall r | r in d.owned
        ensures Tracked(j.strict, u, r, d.marks[r], d.owned[r].last) && Untouched(w, u, d.marks[r], r)
      {
        TrackedStep(j.strict, w, r, d.marks[r], d.owned[r].last, External, e.resource, e.plan, e.namespace);
      }
    }
  }

  lemma {:induction false} DriftTrans(w: World, u: World, v: World, marks: map<Resource, Mark>)
    requires Drift(w, u, marks) && Drift(u, v, marks)
    ensures Drift(w, v, marks)
  {
  }

  lemma {:induction false} EditsKeep(j: Job, w: World, d: Progress, edits: seq<Edit>)
    requires RunOk(j, w, d)
    ensures RunOk(j, EditAll(w, edits), d) && Drift(w, EditAll(w, edits), d.marks)
    decreases |edits|
  {
    if edits != [] {
      EditKeeps(j, w, d, edits[0]);
      EditsKeep(j, EditOne(w, edits[0]), d, edits[1..]);
      DriftTrans(w, EditOne(w, edits[0]), EditAll(w, edits), d.marks);
    }
  }

  /** Interference before a call keeps everything the run knows. */
  lemma {:induction false} MovedKeeps(j: Job, w: World, d: Progress, rivals: seq<seq<Edit>>)
    requires RunOk(j, w, d)
    ensures RunOk(j, Moved(w, rivals), d) && Drift(w, Moved(w, rivals), d.marks)
  {
    if rivals != [] {
      EditsKeep(j, w, d, rivals[0]);
    }
  }

  lemma {:induction false} WorldStep(w: World, source: Source, r0: Resource, plan: TargetPlan, namespace: nat)
    requires WorldOk(w) && Accepts(w.valid, w.policies, r0, plan)
    ensures WorldOk(Install(w, source, r0, plan, namespace))
  {
  }

  /** How the run's own publication to r0 moves the other resources, and r0 itself. */
  lemma {:induction false} OwnerStep(j: Job, w: World, d: Progress, source: Source, r0: Resource, plan: TargetPlan,
                                     namespace: nat,
                  r: Resource)
    requires OwnersOk(j, w, d) && r0 in d.owned && r0 in w.policies && !source.External? && r in d.owned
    requires j.strict ==> w.policies[r0].generation == d.owned[r0].last
    ensures var u := Install(w, source, r0, plan, namespace);
            && Tracked(j.strict, u, r, d.marks[r], Advanced(d, w, source, r0).owned[r].last)
            && (if r == r0 then AccountOf(u.log, d.marks[r].since, r).last == Some(u.log[|w.log|])
                else Untouched(w, u, d.marks[r], r))
  {
    TrackedStep(j.strict, w, r, d.marks[r], d.owned[r].last, source, r0, plan, namespace);
  }

  lemma {:induction false} OwnersStep(j: Job, w: World, d: Progress, source: Source, r0: Resource, plan: TargetPlan,
                                      namespace: nat)
    requires OwnersOk(j, w, d) && r0 in d.owned && r0 in w.policies && !source.External?
    requires j.strict ==> w.policies[r0].generation == d.owned[r0].last
    ensures OwnersOk(j, Install(w, source, r0, plan, namespace), Advanced(d, w, source, r0))
    ensures OnlyMoved(w, Install(w, source, r0, plan, namespace), d.marks, r0)
  {
    var u := Install(w, source, r0, plan, namespace);
    var e := Advanced(d, w, source, r0);
    forall r | r in d.owned
      ensures Tracked(j.strict, u, r, d.marks[r], e.owned[r].last)
      ensures if r == r0 then AccountOf(u.log, d.marks[r].since, r).last == Some(u.log[|w.log|])
              else Untouched(w, u, d.marks[r], r)
    {
      OwnerStep(j, w, d, source, r0, plan, namespace, r);
    }
    assert e.owned.Keys == d.owned.Keys;
  }

  /** The run published to r0, and left every other resource alone. */
  ghost predicate OnlyMoved(w: World, u: World, marks: map<Resource, Mark>, r0: Resource)
  {
    && u.policies.Keys == w.policies.Keys && |u.log| == |w.log| + 1
    && (forall r <- marks | r != r0 :: Untouched(w, u, marks[r], r))
    && (forall r <- w.policies | r != r0 :: u.policies[r] == w.policies[r])
    && (r0 in marks ==> AccountOf(u.log, marks[r0].since, r0).last == Some(u.log[|w.log|]))
  }

  /** The run's own publication to an owned resource. */
  lemma {:induction false} OwnKeeps(j: Job, w: World, d: Progress, source: Source, r0: Resource, plan: TargetPlan,
                                    namespace: nat)
    requires RunOk(j, w, d) && r0 in d.owned && Accepts(w.valid, w.policies, r0, plan) && !source.External?
    requires j.strict ==> w.policies[r0].generation == d.owned[r0].last
    requires source.Tape? ==> source.position == d.published
    requires FaithfulEntry(j, d.marks, Install(w, source, r0, plan, namespace).log[|w.log|])
    ensures RunOk(j, Install(w, source, r0, plan, namespace), Advanced(d, w, source, r0))
    ensures OnlyMoved(w, Install(w, source, r0, plan, namespace), d.marks, r0)
  {
    var u := Install(w, source, r0, plan, namespace);
    var e := Advanced(d, w, source, r0);
    LogStep(j, w.log, d, u.log[|w.log|]);
    assert LogOk(j, u.log, e);
    HistoryStep(j.registry, w, source, r0, plan, namespace);
    WorldStep(w, source, r0, plan, namespace);
    OwnersStep(j, w, d, source, r0, plan, namespace);
  }

  /** The progress after the run published to r0. */
  ghost function Advanced(d: Progress, w: World, source: Source, r0: Resource): Progress
    requires r0 in d.owned && r0 in w.policies
  {
    d.(owned := d.owned[r0 := d.owned[r0].(last := w.policies[r0].generation + 1)],
       published := if source.Tape? then d.published + 1 else d.published)
  }

  /** One more event folds into every resource as the run published it. */
  lemma {:induction false} FoldKeeps(j: Job, w: World, u: World, d: Progress, e: Progress, r: Resource)
    requires r in d.marks && e.marks == d.marks && e.published == d.published + 1 <= |j.events| && FoldOk(j, w, d, r)
    requires var a := j.events[d.published].action;
             if ResourceOf(a) == r then
               LastPolicy(u.log, r, d.marks[r]).plan == Effect(a, LastPolicy(w.log, r, d.marks[r]).plan)
             else AccountOf(u.log, d.marks[r].since, r).last == AccountOf(w.log, d.marks[r].since, r).last
    ensures FoldOk(j, u, e, r)
  {
    assert j.events[..e.published][..d.published] == j.events[..d.published];
  }

  // --- Cleanup ---

  datatype CleanupOutcome = NotRequested | Restored | Conflict | Missing

  /** A resource reads as restored exactly when the restore is the run's last publication to it; a
      conflict means that somebody else had published since the run last did, or that no generation
      is left. */
  ghost predicate OutcomeOk(w: World, r: Resource, m: Mark, outcome: CleanupOutcome) {
    match outcome
    case Restored => RestoredLast(w.log, m.since, r)
    case Conflict =>
      !RestoredLast(w.log, m.since, r) && r in w.policies
      && (AccountOf(w.log, m.since, r).trailing > 0 || w.policies[r].generation == U64_MAX)
    case NotRequested => !RestoredLast(w.log, m.since, r)
    case Missing => false
  }

  lemma {:induction false} OutcomeKeeps(w: World, u: World, r: Resource, m: Mark, outcome: CleanupOutcome)
    requires OutcomeOk(w, r, m, outcome) && Untouched(w, u, m, r)
    requires u.valid == w.valid
    requires r in w.policies ==>
             r in u.policies && Later(w.policies[r], u.policies[r]) && u.policies[r].generation <= U64_MAX
    ensures OutcomeOk(u, r, m, outcome)
  {
  }

  lemma {:induction false} LastLogged(log: seq<Publication>, since: nat, r: Resource) returns (i: nat)
    requires AccountOf(log, since, r).last.Some?
    ensures since <= i < |log| && log[i] == AccountOf(log, since, r).last.value
    ensures log[i].resource == r && !log[i].source.External?
  {
    if log[|log| - 1].resource == r && !log[|log| - 1].source.External? {
      i := |log| - 1;
    } else {
      i := LastLogged(log[..|log| - 1], since, r);
    }
  }

  // --- What an account says about positions in the log ---

  /** Entry n is somebody else's publication to r since `since`. */
  ghost predicate ForeignAt(log: seq<Publication>, since: nat, r: Resource, n: nat) {
    since <= n < |log| && log[n].resource == r && log[n].source.External?
  }

  /** Before entry n, cleanup had already restored r. */
  ghost predicate RestoredBefore(log: seq<Publication>, since: nat, r: Resource, n: nat)
    requires n <= |log|
  {
    exists i :: since <= i < n && log[i].resource == r && log[i].source.Restore?
  }

  /** After anybody else's publication to r, every later one to r is somebody else's too. */
  ghost predicate NothingOwnAfter(log: seq<Publication>, since: nat, r: Resource) {
    forall n: nat, k: nat | ForeignAt(log, since, r, n) && n < k < |log| && log[k].resource == r ::
      ForeignAt(log, since, r, k)
  }

  lemma {:induction false} ExternalMeans(log: seq<Publication>, since: nat, r: Resource)
    ensures AccountOf(log, since, r).external > 0 <==> exists n: nat :: ForeignAt(log, since, r, n)
  {
    if |log| > since {
      var last := |log| - 1;
      var init := log[..last];
      ExternalMeans(init, since, r);
      assert forall n: nat :: n < last ==> (ForeignAt(log, since, r, n) <==> ForeignAt(init, since, r, n));
      if ForeignAt(log, since, r, last) {
      } else if n: nat :| ForeignAt(init, since, r, n) {
        assert ForeignAt(log, since, r, n);
      }
    }
  }

  lemma {:induction false} IsolatedMeans(log: seq<Publication>, since: nat, r: Resource)
    ensures AccountOf(log, since, r).isolated <==> NothingOwnAfter(log, since, r)
  {
    if |log| > since {
      var last := |log| - 1;
      var init := log[..last];
      IsolatedMeans(init, since, r);
      ExternalMeans(init, since, r);
      assert forall n: nat :: n < last ==> (ForeignAt(log, since, r, n) <==> ForeignAt(init, since, r, n));
      if NothingOwnAfter(log, since, r) {
        assert NothingOwnAfter(init, since, r);
        if log[last].resource == r && !log[last].source.External? {
          forall n: nat ensures !ForeignAt(init, since, r, n) {
            assert ForeignAt(init, since, r, n) ==> ForeignAt(log, since, r, n);
          }
        }
      } else {
        var n: nat, k: nat :| ForeignAt(log, since, r, n) && n < k < |log| && log[k].resource == r &&
          !ForeignAt(log, since, r, k);
        assert ForeignAt(init, since, r, n);
        if k < last {
          assert init[k].resource == r && !ForeignAt(init, since, r, k);
          assert !NothingOwnAfter(init, since, r);
        }
      }
    }
  }

  /** Strict isolation. Once somebody else has published to a resource, the run never does again, and
      unless it had restored the resource before, cleanup does not report it restored. If cleanup does
      report it restored, the run's publications there are consecutive generations, the last of which puts
      back the prepared plan, and every external publication came afterwards. A conflict means an external
      publication, or that no generation is left. */
  lemma {:induction false} StrictIsolation(j: Job, w: World, d: Progress, r: Resource, outcome: CleanupOutcome)
    requires RunOk(j, w, d) && j.strict && r in d.owned && OutcomeOk(w, r, d.marks[r], outcome)
    ensures var (m, now) := (d.marks[r], w.policies[r]);
            var a, last := AccountOf(w.log, m.since, r), LastPolicy(w.log, r, m);
            && a.isolated && now.generation == m.policy.generation + a.own + a.external
            && (now == last <==> a.external == 0)
            && (outcome.Restored? ==>
                  last == LivePolicies.Published(m.policy.generation + a.own, m.policy.plan, j.seedOf(|j.events|)))
            && (outcome.Conflict? ==> a.external > 0 || now.generation == U64_MAX)
    ensures NothingOwnAfter(w.log, d.marks[r].since, r)
    ensures forall n: nat | ForeignAt(w.log, d.marks[r].since, r, n) ::
              outcome.Restored? ==> RestoredBefore(w.log, d.marks[r].since, r, n)
  {
    var m := d.marks[r];
    IsolatedMeans(w.log, m.since, r);
    if outcome.Restored? {
      var i := LastLogged(w.log, m.since, r);
      assert FaithfulEntry(j, d.marks, w.log[i]);
      forall n: nat | ForeignAt(w.log, m.since, r, n) ensures RestoredBefore(w.log, m.since, r, n) {
        assert n < i ==> ForeignAt(w.log, m.since, r, i);
      }
    }
  }

  // --- What the log of a run says ---

  /** Events publish in tape order, each at most once. */
  lemma {:induction false} TapeOrder(log: seq<Publication>, k: nat, a: nat, b: nat)
    requires Numbered(log, k) && a <= b < |log| && log[a].source.Tape? && log[b].source.Tape?
    ensures log[b].source.position < k && (a < b ==> log[a].source.position < log[b].source.position)
  {
    var n := |log| - 1;
    if log[n].source.Tape? {
      if b < n {
        TapeOrder(log[..n], k - 1, a, b);
      } else if a < n {
        TapeOrder(log[..n], k - 1, a, a);
      }
    } else {
      TapeOrder(log[..n], k, a, b);
    }
  }

  /** No event fires early, and none loses a concurrent edit: whatever an event published is what its
      action makes of the very policy that was current when it did. A remove-fault in particular
      publishes exactly the replaced plan without that fault, in either mode. */
  lemma {:induction false} NoLostEdit(j: Job, w: World, d: Progress, n: nat)
    requires RunOk(j, w, d) && n < |w.log| && w.log[n].source.Tape?
    ensures var (r, i, at) := (w.log[n].resource, w.log[n].source.position, w.log[n].source.at);
            && i < d.published && r == ResourceOf(j.events[i].action) && j.epoch + j.events[i].offset <= at
            && r in Replay(j.registry, w.log[..n])
            && var current := Replay(j.registry, w.log[..n])[r];
               w.log[n].next == LivePolicies.Published(current.generation + 1, Effect(j.events[i].action, current.plan),
                                                       j.seedOf(j.events[i].index))
  {
    TapeOrder(w.log, d.published, n, n);
    assert FaithfulEntry(j, d.marks, w.log[n]);
    ConsistentAt(j.registry, w.log, n);
  }
}
