/** What a reported run guarantees, read off its report and the log of publications. */
module DriverResults {
  import opened Common
  import opened Schedule
  import opened PolicyTargets
  import opened DriverProofs
  import opened Driver
  import StreamPlan
  import StreamEngine
  import LivePolicies

  /** What a strict run guarantees about every resource it touched. */
  lemma {:induction false} StrictRun(j: Job, cleanup: Cleanup, w: World, d: Progress, rep: Report, r: Resource)
    requires ReportOk(j, cleanup, w, d, rep) && j.strict && r in rep.cleanup
    ensures var (m, now) := (d.marks[r], w.policies[r]);
            var a, last := AccountOf(w.log, m.since, r), LastPolicy(w.log, r, m);
            && a.isolated && now.generation == m.policy.generation + a.own + a.external
            && (now == last <==> a.external == 0)
            && (rep.cleanup[r].Restored? ==>
                  last == LivePolicies.Published(m.policy.generation + a.own, m.policy.plan, j.seedOf(|j.events|)))
            && (rep.cleanup[r].Conflict? ==> a.external > 0 || now.generation == U64_MAX)
            && (cleanup.RestoreInitial? && a.external == 0 && now.generation < U64_MAX ==> rep.cleanup[r].Restored?)
    ensures NothingOwnAfter(w.log, d.marks[r].since, r)
    ensures forall n: nat | ForeignAt(w.log, d.marks[r].since, r, n) ::
              rep.cleanup[r].Restored? ==> RestoredBefore(w.log, d.marks[r].since, r, n)
  {
    assert OutcomeOk(w, r, d.marks[r], rep.cleanup[r]);
    StrictIsolation(j, w, d, r, rep.cleanup[r]);
  }

  /** Once an external publication lands on a resource that has not been restored yet, the run never
      publishes there again and cleanup reports a conflict. */
  lemma {:induction false} ExternalMeansConflict(j: Job, w: World, d: Progress, rep: Report, r: Resource, n: nat)
    requires ReportOk(j, RestoreInitial, w, d, rep) && j.strict && r in rep.cleanup
    requires ForeignAt(w.log, d.marks[r].since, r, n) && !RestoredBefore(w.log, d.marks[r].since, r, n)
    ensures rep.cleanup[r].Conflict?
    ensures forall k | n < k < |w.log| && w.log[k].resource == r :: w.log[k].source.External?
  {
    StrictRun(j, RestoreInitial, w, d, rep, r);
    forall k | n < k < |w.log| && w.log[k].resource == r ensures w.log[k].source.External? {
      assert ForeignAt(w.log, d.marks[r].since, r, k);
    }
  }

  /** A completed strict run that leaves its resources alone has published, last of all, the fold of
      its actions over each prepared plan; the resource still is as it published it exactly if nobody
      else published there. */
  lemma {:induction false} LeftAtFold(j: Job, w: World, d: Progress, rep: Report, r: Resource)
    requires ReportOk(j, Leave, w, d, rep) && j.strict && rep.status.Completed? && r in rep.cleanup
    ensures var m := d.marks[r];
            && LastPolicy(w.log, r, m).plan == Fold(j.events, r, m.policy.plan)
            && (w.policies[r] == LastPolicy(w.log, r, m) <==> AccountOf(w.log, m.since, r).external == 0)
  {
    assert Open(j, w, d, r);
    assert Tracked(j.strict, w, r, d.marks[r], d.owned[r].last);
    FoldReached(j, w, d, r, d.owned[r].last);
  }

  lemma {:induction false} FoldReached(j: Job, w: World, d: Progress, r: Resource, last: nat)
    requires j.strict && r in d.marks && d.published == |j.events| && FoldOk(j, w, d, r) &&
             Tracked(true, w, r, d.marks[r], last)
    ensures var m := d.marks[r];
            && LastPolicy(w.log, r, m).plan == Fold(j.events, r, m.policy.plan)
            && (w.policies[r] == LastPolicy(w.log, r, m) <==> AccountOf(w.log, m.since, r).external == 0)
  {
    assert j.events[..|j.events|] == j.events;
  }

  lemma {:induction false} LaterEditReport(j: Job, cleanup: Cleanup, w: World, d: Progress, rep: Report, e: Edit)
    requires ReportOk(j, cleanup, w, d, rep)
    ensures ReportOk(j, cleanup, EditOne(w, e), d, rep)
  {
    var u := EditOne(w, e);
    EditKeeps(j, w, d, e);
    forall r | r in rep.cleanup ensures OutcomeOk(u, r, d.marks[r], rep.cleanup[r]) {
      OutcomeKeeps(w, u, r, d.marks[r], rep.cleanup[r]);
    }
    if cleanup.Leave? {
      forall r | r in d.marks ensures Open(j, u, d, r) {
        assert Open(j, w, d, r);
      }
    }
  }

  /** The condition is sharp for every report, restored or left: one more accepted publication by somebody
      else keeps the report true and puts the resource at the other's plan, whatever the run left there. */
  lemma {:induction false} LaterEdit(j: Job, cleanup: Cleanup, w: World, d: Progress, rep: Report, e: Edit)
    requires ReportOk(j, cleanup, w, d, rep) && j.strict && e.resource in rep.cleanup
    requires Accepts(w.valid, w.policies, e.resource, e.plan)
    ensures ReportOk(j, cleanup, EditOne(w, e), d, rep)
    ensures EditOne(w, e).policies[e.resource].plan == e.plan
    ensures EditOne(w, e).policies[e.resource] != LastPolicy(EditOne(w, e).log, e.resource, d.marks[e.resource])
  {
    LaterEditReport(j, cleanup, w, d, rep, e);
    StrictRun(j, cleanup, EditOne(w, e), d, rep, e.resource);
    assert Tracked(true, w, e.resource, d.marks[e.resource], d.owned[e.resource].last);
    EditCounts(w, e, d.marks[e.resource].since);
  }

  lemma {:induction false} EditCounts(w: World, e: Edit, since: nat)
    requires Accepts(w.valid, w.policies, e.resource, e.plan) && since <= |w.log|
    ensures AccountOf(EditOne(w, e).log, since, e.resource).external == AccountOf(w.log, since, e.resource).external + 1
  {
    assert EditOne(w, e).log[..|w.log|] == w.log;
  }

  /** The evidence is an exact prefix of the tape, never early, with the generations actually published. */
  lemma {:induction false} EvidencePrefix(j: Job, cleanup: Cleanup, w: World, d: Progress, rep: Report, i: nat)
    requires ReportOk(j, cleanup, w, d, rep) && i < rep.applied
    ensures var (e, x) := (j.events[i], rep.records[i]);
            && x.index == e.index && x.phase == e.phase && x.resource == ResourceOf(e.action) &&
               x.action == ActionName(e.action)
            && x.scheduledOffset == e.offset && x.appliedElapsed == e.offset + x.lateBy
    ensures exists n :: 0 <= n < |w.log| && w.log[n].source.Tape? && w.log[n].source.position == i
                        && (if rep.records[i].resource.direction.Upstream? then rep.records[i].upstream
                            else rep.records[i].downstream)
                             == w.log[n].next.generation
  {
    assert RecordOk(j, w.log, i, rep.records[i]);
    var n := PublishedAt(w.log, d.published, i);
  }

  lemma {:induction false} PublishedAt(log: seq<Publication>, k: nat, i: nat) returns (n: nat)
    requires Numbered(log, k) && i < k
    ensures n < |log| && log[n].source.Tape? && log[n].source.position == i &&
            log[n].next.generation == GenerationOf(log, i)
  {
    var last := |log| - 1;
    if log[last].source.Tape? && log[last].source.position == i {
      n := last;
    } else if log[last].source.Tape? {
      n := PublishedAt(log[..last], k - 1, i);
    } else {
      n := PublishedAt(log[..last], k, i);
    }
  }

  // --- A run whose result is overwritten ---

  const PROXY: Resource := Resource("proxy", StreamEngine.Upstream, Stream)

  /** A one-event tape that clears the plan of `PROXY`. */
  const CLEARING: Event := Event(0, Top(0), 0, SetPlan("proxy", StreamEngine.Upstream, []))

  /** What somebody else publishes to `PROXY` afterwards. */
  const LIMITING: TargetPlan := StreamFaults([StreamPlan.FaultSpec("limit", 1.0, StreamPlan.LimitData(1))])

  const UNTOUCHED: Policy := LivePolicies.Published(1, StreamFaults([]), 0)

  /** Both directions of the proxy start with an empty plan; the tape runs strictly. */
  function ClearingJob(seedOf: nat -> nat): Job {
    Job([CLEARING], true, seedOf, 0, map[PROXY := UNTOUCHED, Sibling(PROXY) := UNTOUCHED], VALIDITY)
  }

  lemma {:induction false} PlansValid()
    ensures VALIDITY(StreamFaults([])) && VALIDITY(LIMITING)
  {
    assert StreamPlan.ValidPlan([]) && StreamPlan.ValidPlan(LIMITING.faults);
  }

  lemma {:induction false} ClearingFold(plan: TargetPlan)
    ensures Fold([CLEARING], PROXY, plan) == StreamFaults([])
  {
    assert [CLEARING][..0] == [];
  }

  lemma {:induction false} ClearingPrepared(seedOf: nat -> nat) returns (w: World, d: Progress)
    ensures Running(ClearingJob(seedOf), w, d) && d.published == 0 && d.records == []
    ensures w == World(ClearingJob(seedOf).registry, [], VALIDITY)
    ensures d.marks == map[PROXY := Mark(0, w.policies[PROXY])] && d.owned == map[PROXY := Owned(1, StreamFaults([]))]
  {
    var j := ClearingJob(seedOf);
    w := World(j.registry, [], VALIDITY);
    var empty := Progress(map[], map[], 0, []);
    PlansValid();
    assert Running(j, w, empty) && w.policies[PROXY] == UNTOUCHED;
    AdoptKeeps(j, w, empty, PROXY);
    d := Adopt(empty, w, PROXY);
  }

  /** The run applies its event, records it and completes, leaving the fold of its tape: an empty plan. */
  lemma {:induction false} ClearingRuns(seedOf: nat -> nat) returns (w: World, d: Progress, rep: Report)
    ensures ReportOk(ClearingJob(seedOf), Leave, w, d, rep) && rep.status.Completed? && rep.cleanup.Keys == {PROXY}
    ensures PROXY in w.policies && w.policies[PROXY].generation == 2 && w.valid == VALIDITY
    ensures d.marks.Keys == {PROXY}
  {
    var j := ClearingJob(seedOf);
    var w0, d0 := ClearingPrepared(seedOf);
    var plan := StreamFaults([]);
    PlansValid();
    EventKeeps(j, w0, d0, plan, 1, 0);
    w := Install(w0, Tape(0, 0), PROXY, plan, seedOf(0));
    var d1 := Advanced(d0, w0, Tape(0, 0), PROXY);
    var rec := EventResult(0, Top(0), 0, 0, 0, "set-plan", PROXY, 2, 1, 1);
    RecordKeeps(j, w, d1, rec);
    d := d1.(records := d1.records + [rec]);
    rep := Report(Completed, None, 1, d.records, map[PROXY := NotRequested]);
    assert Open(j, w, d, PROXY);
  }

  /** The fold can be lost: after a completed strict `leave` run, one publication by somebody else leaves the
      resource at a plan that is not the fold of the run's actions. */
  lemma {:induction false} FoldCanBeOverwritten(seedOf: nat -> nat) returns (w: World, d: Progress, rep: Report)
    ensures var j := ClearingJob(seedOf);
            && ReportOk(j, Leave, w, d, rep) && rep.status.Completed? && PROXY in rep.cleanup
            && w.policies[PROXY].plan == LIMITING != Fold(j.events, PROXY, d.marks[PROXY].policy.plan)
  {
    var j := ClearingJob(seedOf);
    var w0;
    w0, d, rep := ClearingRuns(seedOf);
    PlansValid();
    ClearingFold(d.marks[PROXY].policy.plan);
    var e := Edit(PROXY, LIMITING, 0);
    LaterEdit(j, Leave, w0, d, rep, e);
    w := EditOne(w0, e);
  }
}
