/** Scenario V2 schedules: their actions, the plans these act on, and the compiled event tape
    (action.rs, run.rs, target.rs and the record types of compiler.rs and source.rs). */
module Schedule {
  import StreamPlan
  import DatagramPlan
  import StreamEngine
  import LivePolicies

  type Direction = StreamEngine.Direction

  datatype Transport = Stream | Datagram

  datatype Resource = Resource(proxy: string, direction: Direction, transport: Transport)

  /** A plan of either transport family. */
  datatype TargetPlan =
    | StreamFaults(faults: seq<StreamPlan.FaultSpec>)
    | DatagramFaults(stages: seq<DatagramPlan.Fault>)

  /** A resource's current plan with its generation and seed namespace. */
  type Policy = LivePolicies.Published<TargetPlan>

  datatype Action =
    | SetPlan(proxy: string, direction: Direction, faults: seq<StreamPlan.FaultSpec>)
    | RemoveFault(proxy: string, direction: Direction, id: string)
    | SetDatagramPlan(proxy: string, direction: Direction, stages: seq<DatagramPlan.Fault>)
    | RemoveDatagramFault(proxy: string, direction: Direction, id: string)

  function ResourceOf(a: Action): Resource {
    Resource(a.proxy, a.direction, if a.SetPlan? || a.RemoveFault? then Stream else Datagram)
  }

  function ActionName(a: Action): string {
    match a
    case SetPlan(_, _, _) => "set-plan"
    case RemoveFault(_, _, _) => "remove-fault"
    case SetDatagramPlan(_, _, _) => "set-datagram-plan"
    case RemoveDatagramFault(_, _, _) => "remove-datagram-fault"
  }

  datatype PhaseId = Top(index: nat) | Repeat(iteration: nat, index: nat)

  datatype Event = Event(index: nat, phase: PhaseId, offset: nat, action: Action)

  datatype Isolation = Strict | Live

  datatype Cleanup = RestoreInitial | Leave

  datatype Compiled = Compiled(
    version: nat, seed: nat, executionKey: nat, isolation: Isolation, cleanup: Cleanup, events: seq<Event>,
      totalDuration: nat)

  // --- Plans ---

  predicate ValidTargetPlan(plan: TargetPlan) {
    match plan
    case StreamFaults(faults) => StreamPlan.ValidPlan(faults)
    case DatagramFaults(stages) => DatagramPlan.ValidPlan(stages)
  }

  /** Plan validation as a value, for what is generic in it. */
  const VALIDITY: TargetPlan -> bool := plan => ValidTargetPlan(plan)

  /** The ids of a plan's faults, in order. */
  function Ids(plan: TargetPlan): (ids: seq<string>)
  {
    match plan
    case StreamFaults(faults) => seq(|faults|, i requires 0 <= i < |faults| => faults[i].id)
    case DatagramFaults(stages) => seq(|stages|, i requires 0 <= i < |stages| => stages[i].id)
  }

  /** The list without the entries of one id. */
  function Remove<T>(xs: seq<T>, idOf: T -> string, id: string): seq<T> {
    if xs == [] then [] else (if idOf(xs[0]) == id then [] else [xs[0]]) + Remove(xs[1..], idOf, id)
  }

  const FAULT_ID: StreamPlan.FaultSpec -> string := (f: StreamPlan.FaultSpec) => f.id
  const STAGE_ID: DatagramPlan.Fault -> string := (f: DatagramPlan.Fault) => f.id

  /** The plan minus one fault, the others in order. */
  function Without(plan: TargetPlan, id: string): TargetPlan {
    match plan
    case StreamFaults(faults) => StreamFaults(Remove(faults, FAULT_ID, id))
    case DatagramFaults(stages) => DatagramFaults(Remove(stages, STAGE_ID, id))
  }

  /** What an action makes of a plan. */
  function Effect(a: Action, plan: TargetPlan): TargetPlan {
    match a
    case SetPlan(_, _, faults) => StreamFaults(faults)
    case SetDatagramPlan(_, _, stages) => DatagramFaults(stages)
    case RemoveFault(_, _, id) => Without(plan, id)
    case RemoveDatagramFault(_, _, id) => Without(plan, id)
  }

  /** What the events make of one resource's plan. */
  function Fold(events: seq<Event>, r: Resource, plan: TargetPlan): TargetPlan {
    if events == [] then plan
    else
      var last := events[|events| - 1];
      var before := Fold(events[..|events| - 1], r, plan);
      if ResourceOf(last.action) == r then Effect(last.action, before) else before
  }

  /** Removal keeps exactly the other entries, however often each occurs. */
  lemma {:induction false} RemoveKeeps<T>(xs: seq<T>, idOf: T -> string, id: string, x: T)
    ensures multiset(Remove(xs, idOf, id))[x] == if idOf(x) == id then 0 else multiset(xs)[x]
  {
    if xs != [] {
      RemoveKeeps(xs[1..], idOf, id, x);
      assert xs == [xs[0]] + xs[1..];
    }
  }

  /** Removal works entry by entry, so the others keep their order. */
  lemma {:induction false} RemoveConcat<T>(a: seq<T>, b: seq<T>, idOf: T -> string, id: string)
    ensures Remove(a + b, idOf, id) == Remove(a, idOf, id) + Remove(b, idOf, id)
  {
    if a == [] {
      assert a + b == b;
    } else {
      RemoveConcat(a[1..], b, idOf, id);
      assert (a + b)[1..] == a[1..] + b;
    }
  }
}
