/** The bandwidth bound on the engine itself: what a run charges to one fault's bucket is a list of
    requests to which the bucket's conformance theorem applies. */
module DatagramConformance {
  import opened Common
  import opened DatagramBucket
  import opened DatagramPlan
  import opened Datagram
  import opened DatagramProofs

  // --- The charges of one admission ---

  /** The charge one candidate makes to the bucket of fault `id` at a stage, if any. */
  function ChargeOf(env: Env, ing: Ingress, stage: nat, f: Fault, it: Item, id: string): seq<Request> {
    if f.id == id && f.kind.Bandwidth? && StageRng(env, ing, stage, f.id, it.copy).Bernoulli(f.probability).0
    then [Request(ing.now, |it.payload|)] else []
  }

  function StageCharges(env: Env, ing: Ingress, stage: nat, rest: seq<Item>, id: string): seq<Request>
    requires stage < |ing.policy.plan|
    decreases |rest|
  {
    if rest == [] then []
    else ChargeOf(env, ing, stage, ing.policy.plan[stage], rest[0], id) + StageCharges(env, ing, stage, rest[1..], id)
  }

  function StagesCharges(env: Env, ing: Ingress, k: nat, w: Work, id: string): seq<Request>
    requires k <= |ing.policy.plan|
    decreases |ing.policy.plan| - k
  {
    if k == |ing.policy.plan| then []
    else
      StageCharges(env, ing, k, w.items, id)
      + StagesCharges(env, ing, k + 1, Stage(env, ing, k, w.items, w.(items := [])), id)
  }

  function AdmitCharges(env: Env, s: State, now: nat, payload: seq<Byte>, policy: Policy, id: string): seq<Request> {
    if |payload| > env.limits.maxDatagramBytes then []
    else
      var s2 := Observed(Counted(s, |payload|), policy);
      StagesCharges(env, Ingress(now, s.ordinal, policy), 0, Work([Item(0, payload, 0)], 1, s2.ev, s2.buckets), id)
  }

  /** Every charge a run makes to the bucket of fault `id`, in order. */
  function RunCharges(env: Env, t: Trace, ops: seq<Op>, id: string): seq<Request>
    decreases |ops|
  {
    if ops == [] then []
    else
      OpCharges(env, t, ops[0], id) + RunCharges(env, Exec(env, t, ops[0]), ops[1..], id)
  }

  // --- The bucket after those charges ---

  lemma {:induction false} AfterPrefix(reqs: seq<Request>, more: seq<Request>, k: nat, rate: pos, burst: pos)
    requires k <= |reqs|
    ensures After(reqs + more, k, rate, burst) == After(reqs, k, rate, burst)
  {
    if k > 0 {
      AfterPrefix(reqs, more, k - 1, rate, burst);
    }
  }

  lemma {:induction false} Associative(a: seq<Request>, b: seq<Request>, c: seq<Request>)
    ensures (a + b) + c == a + (b + c)
  {
  }

  /** The state of fault `id`'s bucket is that of a bucket that served `reqs`. */
  ghost predicate Served(buckets: map<string, Bucket>, id: string, reqs: seq<Request>, rate: pos, burst: pos) {
    BucketOf(buckets, id) == After(reqs, |reqs|, rate, burst)
  }

  /** Wherever the plan names fault `id`, it is a bandwidth fault of this rate and burst. */
  ghost predicate Only(plan: seq<Fault>, id: string, rate: pos, burst: pos) {
    forall i :: 0 <= i < |plan| && plan[i].id == id ==> plan[i].kind == Bandwidth(rate, burst)
  }

  /** One candidate through one stage: the bucket serves its charge, and the candidate is held until the
      release time of that charge. */
  lemma {:induction false} ApplyCharged(env: Env, ing: Ingress, stage: nat, it: Item, w: Work, id: string,
                     reqs: seq<Request>, rate: pos, burst: pos)
    requires stage < |ing.policy.plan| && Only(ing.policy.plan, id, rate, burst)
    requires Served(w.buckets, id, reqs, rate, burst)
    ensures var f := ing.policy.plan[stage];
            var (all, v) := (reqs + ChargeOf(env, ing, stage, f, it, id), ApplyFault(env, ing, stage, f, it, w));
            && Served(v.buckets, id, all, rate, burst)
            && (|all| > |reqs| ==>
                  v.items == w.items + [it.(delay := it.delay + Release(all, |reqs|, rate, burst) - ing.now)])
  {
    var f := ing.policy.plan[stage];
    var charge := ChargeOf(env, ing, stage, f, it, id);
    if charge == [] {
      assert reqs + charge == reqs;
    } else {
      AfterPrefix(reqs, charge, |reqs|, rate, burst);
    }
  }

  lemma {:induction false} StageCharged(env: Env, ing: Ingress, stage: nat, rest: seq<Item>, w: Work, id: string,
                                        reqs: seq<Request>, rate: pos, burst: pos)
    requires stage < |ing.policy.plan| && Only(ing.policy.plan, id, rate, burst)
    requires Served(w.buckets, id, reqs, rate, burst)
    ensures Served(Stage(env, ing, stage, rest, w).buckets, id, reqs + StageCharges(env, ing, stage, rest, id), rate,
                   burst)
    decreases |rest|
  {
    if rest == [] {
      assert reqs + [] == reqs;
    } else {
      var f := ing.policy.plan[stage];
      var first := ChargeOf(env, ing, stage, f, rest[0], id);
      ApplyCharged(env, ing, stage, rest[0], w, id, reqs, rate, burst);
      StageCharged(env, ing, stage, rest[1..], ApplyFault(env, ing, stage, f, rest[0], w), id, reqs + first, rate,
                   burst);
      Associative(reqs, first, StageCharges(env, ing, stage, rest[1..], id));
    }
  }

  lemma {:induction false} StagesCharged(env: Env, ing: Ingress, k: nat, w: Work, id: string,
                                         reqs: seq<Request>, rate: pos, burst: pos)
    requires k <= |ing.policy.plan| && Only(ing.policy.plan, id, rate, burst)
    requires Served(w.buckets, id, reqs, rate, burst)
    ensures Served(Stages(env, ing, k, w).buckets, id, reqs + StagesCharges(env, ing, k, w, id), rate, burst)
    decreases |ing.policy.plan| - k
  {
    if k == |ing.policy.plan| {
      assert reqs + [] == reqs;
    } else {
      var first := StageCharges(env, ing, k, w.items, id);
      var next := Stage(env, ing, k, w.items, w.(items := []));
      StageCharged(env, ing, k, w.items, w.(items := []), id, reqs, rate, burst);
      StagesCharged(env, ing, k + 1, next, id, reqs + first, rate, burst);
      Associative(reqs, first, StagesCharges(env, ing, k + 1, next, id));
    }
  }

  /** The policy keeps fault `id` in its plan, as a bandwidth fault of this rate and burst. */
  ghost predicate Keeps(plan: seq<Fault>, id: string, rate: pos, burst: pos) {
    Only(plan, id, rate, burst) && exists f :: f in plan && f.id == id
  }

  lemma {:induction false} ScheduledBuckets(l: Limits, ing: Ingress, s: State, items: seq<Item>)
    ensures EnqueueAll(l, ing, s, items).buckets == s.buckets && EmitAll(s, items).buckets == s.buckets
    decreases |items|
  {
    if items != [] {
      ScheduledBuckets(l, ing, EnqueueOrDrop(l, ing, s, items[0]), items[1..]);
      ScheduledBuckets(l, ing, EmittedNow(s, |items[0].payload|), items[1..]);
    }
  }

  lemma {:induction false} ReadyBuckets(s: State, now: nat)
    ensures Ready(s, now).0.buckets == s.buckets
    decreases |s.queue|
  {
    if s.queue != [] && s.queue[0].at <= now {
      ReadyBuckets(Popped(s), now);
    }
  }

  lemma {:induction false} AdmitCharged(env: Env, s: State, now: nat, payload: seq<Byte>, policy: Policy, id: string,
                     reqs: seq<Request>, rate: pos, burst: pos)
    requires Keeps(policy.plan, id, rate, burst) && Served(s.buckets, id, reqs, rate, burst)
    ensures Served(Admit(env, s, now, payload, policy).0.buckets, id,
                   reqs + AdmitCharges(env, s, now, payload, policy, id), rate, burst)
  {
    if |payload| > env.limits.maxDatagramBytes {
      assert reqs + [] == reqs;
    } else {
      var ing := Ingress(now, s.ordinal, policy);
      var s2 := Observed(Counted(s, |payload|), policy);
      assert BucketOf(s2.buckets, id) == BucketOf(s.buckets, id);
      var w := Pipeline(env, ing, s2, payload);
      StagesCharged(env, ing, 0, Work([Item(0, payload, 0)], 1, s2.ev, s2.buckets), id, reqs, rate, burst);
      AdmitShape(env, s, now, payload, policy);
      ScheduledBuckets(env.limits, ing, s2.(ev := w.ev, buckets := w.buckets), w.items);
    }
  }

  /** Every admitted policy keeps the fault, at one rate and burst. */
  ghost predicate KeepsAlong(ops: seq<Op>, id: string, rate: pos, burst: pos) {
    forall i :: 0 <= i < |ops| && ops[i].Receive? ==> Keeps(ops[i].policy.plan, id, rate, burst)
  }

  function OpCharges(env: Env, t: Trace, op: Op, id: string): seq<Request> {
    if op.Receive? then AdmitCharges(env, t.s, op.now, op.payload, op.policy, id) else []
  }

  lemma {:induction false} OpCharged(env: Env, t: Trace, op: Op, id: string, reqs: seq<Request>, rate: pos, burst: pos)
    requires op.Receive? ==> Keeps(op.policy.plan, id, rate, burst)
    requires Served(t.s.buckets, id, reqs, rate, burst)
    ensures Served(Exec(env, t, op).s.buckets, id, reqs + OpCharges(env, t, op, id), rate, burst)
  {
    match op {
      case Receive(now, payload, policy) => AdmitCharged(env, t.s, now, payload, policy, id, reqs, rate, burst);
      case Drain(now) =>
        ReadyBuckets(t.s, now);
        assert reqs + [] == reqs;
    }
  }

  /** Over every run that keeps the fault, its bucket is the one that served exactly the run's charges. */
  lemma {:induction false} RunCharged(env: Env, t: Trace, ops: seq<Op>, id: string,
                                      reqs: seq<Request>, rate: pos, burst: pos)
    requires KeepsAlong(ops, id, rate, burst) && Served(t.s.buckets, id, reqs, rate, burst)
    ensures Served(Run(env, t, ops).s.buckets, id, reqs + RunCharges(env, t, ops, id), rate, burst)
    decreases |ops|
  {
    if ops == [] {
      assert reqs + [] == reqs;
    } else {
      var first := OpCharges(env, t, ops[0], id);
      var u := Exec(env, t, ops[0]);
      OpCharged(env, t, ops[0], id, reqs, rate, burst);
      RunCharged(env, u, ops[1..], id, reqs + first, rate, burst);
      Associative(reqs, first, RunCharges(env, u, ops[1..], id));
    }
  }

  // --- Sizes ---

  ghost predicate Sized(reqs: seq<Request>, size: nat) {
    forall i :: 0 <= i < |reqs| ==> reqs[i].bytes <= size
  }

  lemma {:induction false} StageSized(env: Env, ing: Ingress, stage: nat, rest: seq<Item>, w: Work, id: string,
                                      size: nat)
    requires stage < |ing.policy.plan| && AllSized(rest, size) && AllSized(w.items, size)
    ensures AllSized(Stage(env, ing, stage, rest, w).items, size) &&
            Sized(StageCharges(env, ing, stage, rest, id), size)
    decreases |rest|
  {
    if rest != [] {
      StageSized(env, ing, stage, rest[1..], ApplyFault(env, ing, stage, ing.policy.plan[stage], rest[0], w), id, size);
    }
  }

  lemma {:induction false} StagesSized(env: Env, ing: Ingress, k: nat, w: Work, id: string, size: nat)
    requires k <= |ing.policy.plan| && AllSized(w.items, size)
    ensures Sized(StagesCharges(env, ing, k, w, id), size)
    decreases |ing.policy.plan| - k
  {
    if k < |ing.policy.plan| {
      StageSized(env, ing, k, w.items, w.(items := []), id, size);
      StagesSized(env, ing, k + 1, Stage(env, ing, k, w.items, w.(items := [])), id, size);
    }
  }

  lemma {:induction false} RunSized(env: Env, t: Trace, ops: seq<Op>, id: string)
    ensures Sized(RunCharges(env, t, ops, id), env.limits.maxDatagramBytes)
    decreases |ops|
  {
    if ops != [] {
      RunSized(env, Exec(env, t, ops[0]), ops[1..], id);
      if ops[0].Receive? && |ops[0].payload| <= env.limits.maxDatagramBytes {
        var s2 := Observed(Counted(t.s, |ops[0].payload|), ops[0].policy);
        StagesSized(env, Ingress(ops[0].now, t.s.ordinal, ops[0].policy), 0,
                    Work([Item(0, ops[0].payload, 0)], 1, s2.ev, s2.buckets), id, |ops[0].payload|);
      }
    }
  }

  /** Release times never decrease over the window i..j, and its bytes are at most the burst (or its first
      datagram) plus what the rate earns between its releases. */
  ghost predicate Conforms(reqs: seq<Request>, i: nat, j: nat, rate: pos, burst: pos)
    requires i <= j < |reqs|
  {
    var from, until := Release(reqs, i, rate, burst), Release(reqs, j, rate, burst);
    from <= until && Volume(reqs, i, j) * NANOS <= Max(burst, reqs[i].bytes) * NANOS + rate * (until - from)
  }

  lemma {:induction false} WindowConforms(reqs: seq<Request>, i: nat, j: nat, rate: pos, burst: pos, size: nat)
    requires i <= j < |reqs| && Sized(reqs, size) && size <= MAX_DATAGRAM
    ensures Conforms(reqs, i, j, rate, burst)
  {
    BandwidthConformance(reqs, i, j, rate, burst);
  }

  /** Bandwidth conformance of the engine: over every run from a fresh engine whose policies keep a
      bandwidth fault at one rate and burst, the fault's bucket is the one that served exactly the run's
      charges, and every window of these charges conforms. */
  lemma {:induction false} EngineConforms(env: Env, ops: seq<Op>, id: string, rate: pos, burst: pos, i: nat, j: nat)
    requires ValidLimits(env.limits) && KeepsAlong(ops, id, rate, burst)
    requires i <= j < |RunCharges(env, Trace(START, []), ops, id)|
    ensures var reqs := RunCharges(env, Trace(START, []), ops, id);
            && Served(Run(env, Trace(START, []), ops).s.buckets, id, reqs, rate, burst)
            && Conforms(reqs, i, j, rate, burst)
  {
    var reqs := RunCharges(env, Trace(START, []), ops, id);
    RunCharged(env, Trace(START, []), ops, id, [], rate, burst);
    assert [] + reqs == reqs;
    RunSized(env, Trace(START, []), ops, id);
    WindowConforms(reqs, i, j, rate, burst, env.limits.maxDatagramBytes);
  }
}
