/** The expected-generation publication target under the schedule driver (target.rs,
    stream_target.rs), shared with any number of other publishers. Between any two calls of the
    driver the others may publish whatever they like. */
module PolicyTargets {
  import opened Common
  import opened Schedule
  import StreamPlan
  import LivePolicies

  datatype TargetError =
    MissingResource | UnsupportedCapability | GenerationConflict(expected: nat, found: nat) | Validation

  datatype Result<+T> = Ok(value: T) | Err(error: TargetError)

  /** Who published: somebody else, one event of the run, or the run's cleanup. */
  datatype Source = External | Tape(position: nat, at: nat) | Restore

  datatype Publication = Publication(source: Source, resource: Resource, base: Policy, next: Policy)

  /** The policies of a fixed registry, everything published to them since the run began, and how the
      target validates plans. */
  datatype World = World(policies: map<Resource, Policy>, log: seq<Publication>, valid: TargetPlan -> bool)

  /** A publication another publisher attempts. */
  datatype Edit = Edit(resource: Resource, plan: TargetPlan, namespace: nat)

  ghost function Install(w: World, source: Source, r: Resource, plan: TargetPlan, namespace: nat): World
    requires r in w.policies
  {
    var base := w.policies[r];
    var next := LivePolicies.Published(base.generation + 1, plan, namespace);
    World(w.policies[r := next], w.log + [Publication(source, r, base, next)], w.valid)
  }

  /** The plan is valid and of the resource's transport family. */
  predicate Fits(valid: TargetPlan -> bool, r: Resource, plan: TargetPlan) {
    (r.transport.Stream? <==> plan.StreamFaults?) && valid(plan)
  }

  predicate Accepts(valid: TargetPlan -> bool, policies: map<Resource, Policy>, r: Resource, plan: TargetPlan) {
    r in policies && Fits(valid, r, plan) && policies[r].generation < U64_MAX
  }

  ghost function EditOne(w: World, e: Edit): World {
    if Accepts(w.valid, w.policies, e.resource, e.plan) then Install(w, External, e.resource, e.plan, e.namespace)
      else w
  }

  ghost function EditAll(w: World, edits: seq<Edit>): World
    decreases |edits|
  {
    if edits == [] then w else EditAll(EditOne(w, edits[0]), edits[1..])
  }

  /** The world after the interference that precedes the next call. */
  ghost function Moved(w: World, rivals: seq<seq<Edit>>): World {
    if rivals == [] then w else EditAll(w, rivals[0])
  }

  /** The interference left for the calls after the next. */
  function Remaining(rivals: seq<seq<Edit>>): seq<seq<Edit>> {
    if rivals == [] then [] else rivals[1..]
  }

  /** The target's state as the next call finds it. */
  datatype Stage = Stage(world: World, rivals: seq<seq<Edit>>)

  ghost function Shift(s: Stage): Stage {
    Stage(Moved(s.world, s.rivals), Remaining(s.rivals))
  }

  class PolicyTarget {
    const stream: bool
    const datagram: bool
    const valid: TargetPlan -> bool
    var policies: map<Resource, Policy>
    /** Target-wide count of publications made through the target. */
    var global: nat
    /** What other publishers do before each of the calls to come. */
    var rivals: seq<seq<Edit>>
    /** Everything published since the run began. */
    ghost var log: seq<Publication>

    ghost function Value(): World
      reads this
    {
      World(policies, log, valid)
    }

    ghost function Now(): Stage
      reads this
    {
      Stage(Value(), rivals)
    }

    predicate Supports(r: Resource) {
      if r.transport.Stream? then stream else datagram
    }

    constructor (stream: bool, datagram: bool, valid: TargetPlan -> bool, policies: map<Resource, Policy>,
                 rivals: seq<seq<Edit>>)
      ensures this.stream == stream && this.datagram == datagram && this.rivals == rivals
      ensures Value() == World(policies, [], valid) && global == 0
    {
      this.stream, this.datagram, this.valid, this.policies, this.rivals := stream, datagram, valid, policies, rivals;
      global, log := 0, [];
    }

    /** Let the other publishers run. */
    method Interfere()
      modifies this`policies, this`rivals, this`log
      ensures Value() == Moved(old(Value()), old(rivals)) && rivals == Remaining(old(rivals))
    {
      if rivals == [] {
        return;
      }
      var edits := rivals[0];
      rivals := rivals[1..];
      ghost var all := EditAll(Value(), edits);
      while edits != []
        invariant EditAll(Value(), edits) == all && rivals == Remaining(old(rivals))
        decreases |edits|
      {
        var e := edits[0];
        if Accepts(valid, policies, e.resource, e.plan) {
          PublishNext(External, e.resource, e.plan, e.namespace);
        }
        edits := edits[1..];
      }
    }

    /** One successful publication: exactly the next generation. */
    method PublishNext(ghost source: Source, r: Resource, plan: TargetPlan, namespace: nat)
      requires r in policies
      modifies this`policies, this`log
      ensures Value() == Install(old(Value()), source, r, plan, namespace)
    {
      var base := policies[r];
      var next := LivePolicies.Published(base.generation + 1, plan, namespace);
      policies := policies[r := next];
      log := log + [Publication(source, r, base, next)];
    }

    method Snapshot(r: Resource) returns (s: Result<Policy>)
      modifies this`policies, this`rivals, this`log
      ensures Value() == Moved(old(Value()), old(rivals)) && rivals == Remaining(old(rivals))
      ensures s == if !Supports(r) then Err(UnsupportedCapability) else if r !in policies then Err(MissingResource)
              else Ok(policies[r])
    {
      Interfere();
      if !Supports(r) {
        return Err(UnsupportedCapability);
      }
      s := if r in policies then Ok(policies[r]) else Err(MissingResource);
    }

    method CurrentGeneration(r: Resource) returns (g: Result<nat>)
      modifies this`policies, this`rivals, this`log
      ensures Value() == Moved(old(Value()), old(rivals)) && rivals == Remaining(old(rivals))
      ensures g.Ok? <==> Supports(r) && r in policies
      ensures g.Ok? ==> g.value == policies[r].generation
    {
      var s := Snapshot(r);
      g := if s.Ok? then Ok(s.value.generation) else Err(s.error);
    }

    /** Publish only on the expected generation; anything else changes nothing. */
    method Publish(r: Resource, expected: nat, plan: TargetPlan, namespace: nat, ghost source: Source)
      returns (g: Result<nat>)
      modifies this
      ensures rivals == Remaining(old(rivals))
      ensures var w := Moved(old(Value()), old(rivals));
              && (g.Ok? <==> Supports(r) && Accepts(valid, w.policies, r, plan) && w.policies[r].generation == expected)
              && (g.Ok? ==>
                    && g.value == expected + 1 && global == old(global) + 1
                    && Value() == Install(w, source, r, plan, namespace))
              && (g.Err? ==> Value() == w && global == old(global) && g.error == Refusal(this, w, r, expected, plan))
    {
      Interfere();
      if !Supports(r) {
        return Err(UnsupportedCapability);
      }
      if r !in policies {
        return Err(MissingResource);
      }
      if r.transport.Stream? != plan.StreamFaults? {
        return Err(UnsupportedCapability);
      }
      if !valid(plan) {
        return Err(Validation);
      }
      var found := policies[r].generation;
      if found != expected {
        return Err(GenerationConflict(expected, found));
      }
      if found >= U64_MAX {
        return Err(Validation);
      }
      PublishNext(source, r, plan, namespace);
      global := global + 1;
      g := Ok(expected + 1);
    }
  }

  /** Why a publication that is not accepted is refused. */
  ghost function Refusal(target: PolicyTarget, w: World, r: Resource, expected: nat, plan: TargetPlan): TargetError {
    if !target.Supports(r) then UnsupportedCapability
    else if r !in w.policies then MissingResource
    else if r.transport.Stream? != plan.StreamFaults? then UnsupportedCapability
    else if !target.valid(plan) then Validation
    else if w.policies[r].generation != expected then GenerationConflict(expected, w.policies[r].generation)
    else Validation
  }

  /** On a stream resource, a guarded publication is exactly the guarded call of `LivePolicies`. */
  lemma {:induction false} GuardedPublication(w: World, r: Resource, expected: nat, faults: seq<StreamPlan.FaultSpec>,
                                              namespace: nat,
                           source: Source)
    requires r in w.policies && r.transport.Stream? && w.policies[r].plan.StreamFaults?
    requires w.policies[r].generation <= U64_MAX && w.valid == VALIDITY
    ensures var p := w.policies[r];
            var q := LivePolicies.Published(p.generation, p.plan.faults, p.namespace);
            var call := LivePolicies.PublishExpected(faults, namespace, expected);
            var (next, reply) := LivePolicies.Atomic(call, q);
            && (reply.Accepted? <==> Accepts(w.valid, w.policies, r, StreamFaults(faults)) && p.generation == expected)
            && (reply.Accepted? ==>
                  Install(w, source, r, StreamFaults(faults), namespace).policies[r]
                    == LivePolicies.Published(next.generation, StreamFaults(next.plan), next.namespace))
  {
  }
}
