/** Generation-published fault policies (policy.rs): one shared cell, changed only by a
    compare-and-swap on the identity of the snapshot a publisher loaded. */
module LivePolicies {
  import opened Common
  import opened StreamPlan

  /** Plan, generation and seed namespace move together. */
  datatype Published<P> = Published(generation: nat, plan: P, namespace: nat)

  type StreamPolicy = Published<seq<FaultSpec>>

  /** A published value with the identity of its allocation. A publisher keeps the snapshot it loaded
      alive, so identities are never reused while they matter. */
  datatype Snapshot = Snapshot(id: nat, policy: StreamPolicy)

  datatype Call =
    | Read
    | Publish(plan: seq<FaultSpec>, namespace: nat)
    | PublishExpected(plan: seq<FaultSpec>, namespace: nat, expected: nat)

  datatype Reply =
    | Observed(policy: StreamPolicy)
    | Accepted(policy: StreamPolicy)
    | Conflict(expected: nat, found: nat)
    | InvalidPlan
    | GenerationOverflow

  // --- The atomic object every interleaving must look like ---

  /** When a call publishes, were it to run alone on `p`. */
  predicate Admits(call: Call, p: StreamPolicy) {
    match call
    case Read => false
    case Publish(plan, _) => ValidPlan(plan) && p.generation < U64_MAX
    case PublishExpected(plan, _, expected) => ValidPlan(plan) && expected == p.generation < U64_MAX
  }

  /** A whole call in one indivisible step. */
  function Atomic(call: Call, p: StreamPolicy): (StreamPolicy, Reply) {
    if call.Read? then (p, Observed(p))
    else if Admits(call, p) then
      var next := Published(p.generation + 1, call.plan, call.namespace);
      (next, Accepted(next))
    else if !ValidPlan(call.plan) then (p, InvalidPlan)
    else if call.PublishExpected? && call.expected != p.generation then (p, Conflict(call.expected, p.generation))
    else (p, GenerationOverflow)
  }

  // --- The interleaved publishers ---

  predicate WellFormed(call: Call) {
    call.Read? || ValidPlan(call.plan)
  }

  /** The reply a loaded snapshot settles at once, before any swap is tried. */
  function Verdict(call: Call, p: StreamPolicy): Option<Reply> {
    match call
    case Read => Some(Observed(p))
    case Publish(_, _) => if p.generation == U64_MAX then Some(GenerationOverflow) else None
    case PublishExpected(_, _, expected) =>
      if p.generation != expected then Some(Conflict(expected, p.generation))
      else if p.generation == U64_MAX then Some(GenerationOverflow)
      else None
  }

  /** The replacement a publisher builds on the snapshot it loaded. */
  function Successor(call: Call, p: StreamPolicy): StreamPolicy
    requires !call.Read?
  {
    Published(PlusU64(p.generation, 1), call.plan, call.namespace)
  }

  /** Where a caller is in its retry loop. */
  datatype Thread = Started(call: Call) | Loaded(call: Call, base: Snapshot)

  datatype Completed = Completed(thread: nat, call: Call, reply: Reply)

  /** The shared cell, every call in flight, and the calls completed so far, in order. */
  datatype World = World(cell: Snapshot, nextId: nat, threads: map<nat, Thread>, completed: seq<Completed>)

  datatype Event = Begin(thread: nat, call: Call) | Load(thread: nat) | Swap(thread: nat)

  function Complete(w: World, thread: nat, call: Call, reply: Reply): World {
    w.(threads := w.threads - {thread}, completed := w.completed + [Completed(thread, call, reply)])
  }

  /** One atomic action of one thread; an action that is not enabled changes nothing. */
  function Step(w: World, e: Event): World {
    match e
    case Begin(i, call) =>
      if i in w.threads then w
      else if !WellFormed(call) then Complete(w, i, call, InvalidPlan)
      else w.(threads := w.threads[i := Started(call)])
    case Load(i) =>
      if i !in w.threads || w.threads[i].Loaded? then w
      else
        var call := w.threads[i].call;
        var v := Verdict(call, w.cell.policy);
        if v.Some? then Complete(w, i, call, v.value) else w.(threads := w.threads[i := Loaded(call, w.cell)])
    case Swap(i) =>
      if i !in w.threads || !w.threads[i].Loaded? || w.threads[i].call.Read? then w
      else
        var Loaded(call, base) := w.threads[i];
        var next := Snapshot(w.nextId, Successor(call, base.policy));
        if w.cell.id == base.id then Complete(w.(cell := next, nextId := w.nextId + 1), i, call, Accepted(next.policy))
        else w.(threads := w.threads[i := Started(call)], nextId := w.nextId + 1)
  }

  function Run(w: World, events: seq<Event>): World
    decreases |events|
  {
    if events == [] then w else Run(Step(w, events[0]), events[1..])
  }

  /** A thread holds a snapshot that was current and passed every check when loaded, and the cell can
      only share its identity while it is still that very snapshot. */
  ghost predicate ThreadOk(t: Thread, cell: Snapshot, nextId: nat) {
    && WellFormed(t.call)
    && (t.Loaded? ==>
          && t.base.id < nextId && t.base.policy.generation <= U64_MAX
          && (t.base.id == cell.id ==> t.base == cell) && Verdict(t.call, t.base.policy).None?)
  }

  ghost predicate WorldOk(w: World) {
    w.cell.id < w.nextId && w.cell.policy.generation <= U64_MAX &&
      (forall i <- w.threads :: ThreadOk(w.threads[i], w.cell, w.nextId))
  }

  /** The linearization point: a step that completes a call performs exactly that call, whole, on the
      cell; every other step leaves the policy alone. */
  lemma {:induction false} StepEffect(w: World, e: Event)
    requires WorldOk(w)
    ensures var u := Step(w, e);
            && WorldOk(u)
            && (u.completed == w.completed ==> u.cell == w.cell)
            && (u.completed != w.completed ==>
                  exists call, reply :: u.completed == w.completed + [Completed(e.thread, call, reply)]
                                        && Atomic(call, w.cell.policy) == (u.cell.policy, reply))
  {
    var u := Step(w, e);
    if u.completed != w.completed {
      var last := u.completed[|w.completed|];
      assert u.completed == w.completed + [Completed(e.thread, last.call, last.reply)];
      if e.Swap? {
        assert ThreadOk(w.threads[e.thread], w.cell, w.nextId);
      } else if e.Load? {
        assert ThreadOk(w.threads[e.thread], w.cell, w.nextId);
      }
      assert Atomic(last.call, w.cell.policy) == (u.cell.policy, last.reply);
    }
  }

  /** `done` is a sequential history of the atomic object from `p` to `q`. */
  ghost predicate Linear(p: StreamPolicy, done: seq<Completed>, q: StreamPolicy)
    decreases |done|
  {
    if done == [] then p == q
    else
      var (r, reply) := Atomic(done[0].call, p);
      reply == done[0].reply && Linear(r, done[1..], q)
  }

  lemma {:induction false} LinearAppend(p: StreamPolicy, done: seq<Completed>, q: StreamPolicy, c: Completed)
    requires Linear(p, done, q) && Atomic(c.call, q).1 == c.reply
    ensures Linear(p, done + [c], Atomic(c.call, q).0)
    decreases |done|
  {
    if done == [] {
      assert [c][1..] == [];
    } else {
      assert (done + [c])[1..] == done[1..] + [c];
      LinearAppend(Atomic(done[0].call, p).0, done[1..], q, c);
    }
  }

  /** Linearizability: under every interleaving of any number of callers, the completed calls, in the
      order in which they complete, are a sequential history of the atomic object that ends in the
      current policy. Each takes effect in the very step that completes it. */
  lemma {:induction false} Linearizable(p: StreamPolicy, w: World, events: seq<Event>)
    requires WorldOk(w) && Linear(p, w.completed, w.cell.policy)
    ensures var u := Run(w, events); WorldOk(u) && Linear(p, u.completed, u.cell.policy)
    decreases |events|
  {
    if events != [] {
      StepEffect(w, events[0]);
      var u := Step(w, events[0]);
      if u.completed != w.completed {
        LinearAppend(p, w.completed, w.cell.policy, u.completed[|w.completed|]);
      }
      Linearizable(p, u, events[1..]);
    }
  }

  /** A fresh policy: generation one, nobody calling. */
  function Created(plan: seq<FaultSpec>, namespace: nat): World {
    World(Snapshot(0, Published(1, plan, namespace)), 1, map[], [])
  }

  // --- What every sequential history guarantees, and so every interleaving ---

  function Successes(done: seq<Completed>): nat {
    if done == [] then 0 else Successes(done[1..]) + if done[0].reply.Accepted? then 1 else 0
  }

  lemma {:induction false} GenerationCounts(p: StreamPolicy, done: seq<Completed>, q: StreamPolicy)
    requires Linear(p, done, q)
    ensures q.generation == p.generation + Successes(done)
    decreases |done|
  {
    if done != [] {
      GenerationCounts(Atomic(done[0].call, p).0, done[1..], q);
    }
  }

  /** Seen from `p`, replies only ever carry `p` itself or later generations, and an accepted
      publication always carries a later one. */
  lemma {:induction false} NeverOlder(p: StreamPolicy, done: seq<Completed>, q: StreamPolicy, j: nat)
    requires Linear(p, done, q) && j < |done|
    requires done[j].reply.Observed? || done[j].reply.Accepted?
    ensures var x := done[j].reply.policy;
            && (x == p || p.generation < x.generation)
            && (done[j].reply.Accepted? ==> p.generation < x.generation)
    decreases |done|
  {
    if j > 0 {
      NeverOlder(Atomic(done[0].call, p).0, done[1..], q, j - 1);
    }
  }

  /** Snapshots pair: two replies with one generation carry one plan and one namespace, later replies
      never carry an older generation, and no two publications get the same generation. */
  lemma {:induction false} Pairing(p: StreamPolicy, done: seq<Completed>, q: StreamPolicy, i: nat, j: nat)
    requires Linear(p, done, q) && i < j < |done|
    requires done[i].reply.Observed? || done[i].reply.Accepted?
    requires done[j].reply.Observed? || done[j].reply.Accepted?
    ensures var x, y := done[i].reply.policy, done[j].reply.policy;
            (x == y || x.generation < y.generation) && (done[j].reply.Accepted? ==> x.generation < y.generation)
    decreases |done|
  {
    var r := Atomic(done[0].call, p).0;
    if i == 0 {
      NeverOlder(r, done[1..], q, j - 1);
    } else {
      Pairing(r, done[1..], q, i - 1, j - 1);
    }
  }

  /** An accepted publication carries its caller's plan and namespace, and a guarded one the
      generation right after the expected one. */
  lemma {:induction false} AcceptedCarries(p: StreamPolicy, done: seq<Completed>, q: StreamPolicy, i: nat)
    requires Linear(p, done, q) && i < |done| && done[i].reply.Accepted?
    ensures var (call, x) := (done[i].call, done[i].reply.policy);
            && !call.Read? && ValidPlan(call.plan) && x == Published(x.generation, call.plan, call.namespace)
            && (call.PublishExpected? ==> x.generation == call.expected + 1)
    decreases |done|
  {
    if i > 0 {
      AcceptedCarries(Atomic(done[0].call, p).0, done[1..], q, i - 1);
    }
  }

  /** The reply a call deserves when `now` is current: a reader sees it; a publication is refused only for an
      invalid plan, a generation other than the expected one, or for want of a further generation. */
  ghost predicate Deserved(call: Call, reply: Reply, now: StreamPolicy) {
    match reply
    case Observed(x) => call.Read? && x == now
    case Accepted(x) => !call.Read? && x.generation == now.generation + 1 <= U64_MAX
    case Conflict(expected, found) =>
      call.PublishExpected? && ValidPlan(call.plan) && expected == call.expected != found == now.generation
    case InvalidPlan => !call.Read? && !ValidPlan(call.plan)
    case GenerationOverflow =>
      && !call.Read? && ValidPlan(call.plan) && now.generation >= U64_MAX
      && (call.PublishExpected? ==> call.expected == now.generation)
  }

  /** Every completed call got the reply it deserved of the policy current at its place in the history, and
      only an accepted one changed it. */
  lemma {:induction false} RepliesDeserved(p: StreamPolicy, done: seq<Completed>, q: StreamPolicy, i: nat)
      returns (now: StreamPolicy, after: StreamPolicy)
    requires Linear(p, done, q) && i < |done|
    ensures Linear(p, done[..i], now) && Linear(p, done[..i + 1], after)
    ensures Deserved(done[i].call, done[i].reply, now)
    ensures after == if done[i].reply.Accepted? then done[i].reply.policy else now
    decreases |done|
  {
    if i == 0 {
      now, after := p, Atomic(done[0].call, p).0;
      assert done[..1][1..] == [];
    } else {
      now, after := RepliesDeserved(Atomic(done[0].call, p).0, done[1..], q, i - 1);
      assert done[..i][1..] == done[1..][..i - 1] && done[..i + 1][1..] == done[1..][..i];
    }
  }

  /** Of all guarded publications that name one expected generation, at most one ever succeeds. */
  lemma {:induction false} OneWinner(p: StreamPolicy, done: seq<Completed>, q: StreamPolicy, i: nat, j: nat)
    requires Linear(p, done, q) && i < |done| && j < |done|
    requires done[i].call.PublishExpected? && done[j].call.PublishExpected? &&
             done[i].call.expected == done[j].call.expected
    requires done[i].reply.Accepted? && done[j].reply.Accepted?
    ensures i == j
  {
    AcceptedCarries(p, done, q, i);
    AcceptedCarries(p, done, q, j);
    if i < j {
      Pairing(p, done, q, i, j);
    } else if j < i {
      Pairing(p, done, q, j, i);
    }
  }

  /** The publisher's promise over every run from creation: the generation is one plus the number of
      successful publications, and never more than a u64 can hold. */
  lemma {:induction false} EveryRun(plan: seq<FaultSpec>, namespace: nat, events: seq<Event>)
    ensures var w := Run(Created(plan, namespace), events);
            && Linear(Published(1, plan, namespace), w.completed, w.cell.policy)
            && w.cell.policy.generation == 1 + Successes(w.completed) <= U64_MAX
  {
    var p := Published(1, plan, namespace);
    var w := Run(Created(plan, namespace), events);
    Linearizable(p, Created(plan, namespace), events);
    GenerationCounts(p, w.completed, w.cell.policy);
    NeverOverflows(p, w.completed, w.cell.policy);
  }

  lemma {:induction false} NeverOverflows(p: StreamPolicy, done: seq<Completed>, q: StreamPolicy)
    requires Linear(p, done, q) && p.generation <= U64_MAX
    ensures q.generation <= U64_MAX
    decreases |done|
  {
    if done != [] {
      NeverOverflows(Atomic(done[0].call, p).0, done[1..], q);
    }
  }

  // --- The publisher's own loop ---

  /** Calls of other threads, each whole, in order. */
  function Perform(p: StreamPolicy, calls: seq<Call>): StreamPolicy
    decreases |calls|
  {
    if calls == [] then p else Perform(Atomic(calls[0], p).0, calls[1..])
  }

  /** Several rounds of such calls. */
  function PerformAll(p: StreamPolicy, rounds: seq<seq<Call>>): StreamPolicy
    decreases |rounds|
  {
    if rounds == [] then p else PerformAll(Perform(p, rounds[0]), rounds[1..])
  }

  lemma {:induction false} PerformAllAppend(p: StreamPolicy, rounds: seq<seq<Call>>, calls: seq<Call>)
    ensures PerformAll(p, rounds + [calls]) == Perform(PerformAll(p, rounds), calls)
    decreases |rounds|
  {
    if rounds == [] {
      assert [calls][1..] == [];
    } else {
      assert (rounds + [calls])[1..] == rounds[1..] + [calls];
      PerformAllAppend(Perform(p, rounds[0]), rounds[1..], calls);
    }
  }

  /** The cell and its two publishing loops. `rivals[k]` are the calls other threads complete between
      the k-th load and the k-th swap. Whatever they are, the call takes effect as one atomic step
      after some number of rounds. */
  class LivePolicy {
    var current: Snapshot
    /** Supply of allocation identities. */
    var nextId: nat

    ghost predicate Valid()
      reads this
    {
      current.id < nextId && current.policy.generation <= U64_MAX
    }

    constructor (plan: seq<FaultSpec>, namespace: nat)
      requires ValidPlan(plan)
      ensures Valid() && current.policy == Published(1, plan, namespace)
    {
      current, nextId := Snapshot(0, Published(1, plan, namespace)), 1;
    }

    /** Swap in `next` if `base` is still the very snapshot in the cell. */
    method CompareAndSwap(base: Snapshot, next: StreamPolicy) returns (swapped: bool)
      requires Valid() && next.generation <= U64_MAX
      modifies this
      ensures Valid() && swapped == (old(current).id == base.id)
      ensures if swapped then current == Snapshot(old(nextId), next) else current == old(current)
      ensures nextId == old(nextId) + 1
    {
      swapped := current.id == base.id;
      if swapped {
        current := Snapshot(nextId, next);
      }
      nextId := nextId + 1;
    }

    /** Other threads complete `calls`; a changed policy always has a new identity. */
    method Interfere(calls: seq<Call>)
      requires Valid()
      modifies this
      ensures Valid() && current.policy == Perform(old(current).policy, calls)
      ensures current == old(current) || current.id >= old(nextId)
    {
      var i := 0;
      while i < |calls|
        invariant 0 <= i <= |calls| && Valid() && nextId >= old(nextId)
        invariant Perform(current.policy, calls[i..]) == Perform(old(current).policy, calls)
        invariant current == old(current) || current.id >= old(nextId)
      {
        assert calls[i..][1..] == calls[i + 1..];
        var p := Atomic(calls[i], current.policy).0;
        if Admits(calls[i], current.policy) {
          var _ := CompareAndSwap(current, p);
        }
        i := i + 1;
      }
    }

    method PublishPlan(plan: seq<FaultSpec>, namespace: nat, rivals: seq<seq<Call>>) returns (r: Reply, ghost k: nat)
      requires Valid()
      modifies this
      ensures Valid() && k <= |rivals|
      ensures (current.policy, r) == Atomic(Publish(plan, namespace), PerformAll(old(current).policy, rivals[..k]))
    {
      k := 0;
      if !ValidPlan(plan) {
        return InvalidPlan, k;
      }
      var rest := rivals;
      while true
        invariant Valid() && k <= |rivals| && rest == rivals[k..]
        invariant current.policy == PerformAll(old(current).policy, rivals[..k])
        decreases |rest|
      {
        var base := current;
        if base.policy.generation == U64_MAX {
          return GenerationOverflow, k;
        }
        var next := Published(PlusU64(base.policy.generation, 1), plan, namespace);
        if rest != [] {
          PerformAllAppend(old(current).policy, rivals[..k], rivals[k]);
          assert rivals[..k + 1] == rivals[..k] + [rivals[k]];
          Interfere(rest[0]);
          k := k + 1;
        }
        var swapped := CompareAndSwap(base, next);
        if swapped {
          return Accepted(next), k;
        }
        rest := rest[1..];
      }
    }

    method PublishPlanExpected(plan: seq<FaultSpec>, namespace: nat, expected: nat, rivals: seq<seq<Call>>)
      returns (r: Reply, ghost k: nat)
      requires Valid()
      modifies this
      ensures Valid() && k <= |rivals|
      ensures (current.policy, r)
           == Atomic(PublishExpected(plan, namespace, expected), PerformAll(old(current).policy, rivals[..k]))
    {
      k := 0;
      if !ValidPlan(plan) {
        return InvalidPlan, k;
      }
      var rest := rivals;
      while true
        invariant Valid() && k <= |rivals| && rest == rivals[k..]
        invariant current.policy == PerformAll(old(current).policy, rivals[..k])
        decreases |rest|
      {
        var base := current;
        if base.policy.generation != expected {
          return Conflict(expected, base.policy.generation), k;
        }
        if base.policy.generation == U64_MAX {
          return GenerationOverflow, k;
        }
        var next := Published(PlusU64(base.policy.generation, 1), plan, namespace);
        if rest != [] {
          PerformAllAppend(old(current).policy, rivals[..k], rivals[k]);
          assert rivals[..k + 1] == rivals[..k] + [rivals[k]];
          Interfere(rest[0]);
          k := k + 1;
        }
        var swapped := CompareAndSwap(base, next);
        if swapped {
          return Accepted(next), k;
        }
        rest := rest[1..];
      }
    }
  }
}
