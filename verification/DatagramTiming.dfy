/** When a datagram leaves: over every run, no sooner than the delays, holds and bandwidth releases of its
    own lineage allow. */
module DatagramTiming {
  import opened Common
  import opened DatagramBucket
  import opened DatagramPlan
  import opened Datagram
  import opened DatagramProofs
  import opened DatagramConformance
  import opened DatagramLineage

  // --- The delay of a lineage ---

  /** The wait stage i of the lineage spent in a bandwidth bucket. */
  ghost function BucketWait(env: Env, acc: Account, l: Lineage, i: nat): nat
    requires l.Valid(env, acc) && i < |l.path| - 1
  {
    assert Step(env, l.ing, i, acc, l.path[i], l.path[i + 1]);
    if Struck(env, l.ing, i, l.path[i].copy) && l.ing.policy.plan[i].kind.Bandwidth?
    then l.path[i + 1].delay - l.path[i].delay else 0
  }

  /** The least and the most the first k stages of a lineage add, given its waits for bandwidth. */
  ghost function LeastDelay(env: Env, acc: Account, l: Lineage, k: nat): nat
    requires l.Valid(env, acc) && k < |l.path|
  {
    if k == 0 then 0
    else
      LeastDelay(env, acc, l, k - 1) + BucketWait(env, acc, l, k - 1)
      + if Struck(env, l.ing, k - 1, l.path[k - 1].copy) then Least(l.ing.policy.plan[k - 1].kind) else 0
  }

  ghost function MostDelay(env: Env, acc: Account, l: Lineage, k: nat): nat
    requires l.Valid(env, acc) && k < |l.path|
  {
    if k == 0 then 0
    else
      MostDelay(env, acc, l, k - 1) + BucketWait(env, acc, l, k - 1)
      + if Struck(env, l.ing, k - 1, l.path[k - 1].copy) then Most(l.ing.policy.plan[k - 1].kind) else 0
  }

  /** No delay of the plan is jittered. */
  ghost predicate Unjittered(plan: seq<Fault>) {
    forall i :: 0 <= i < |plan| && plan[i].kind.Delay? ==> plan[i].kind.jitter == 0
  }

  /** The accumulated delay is what the striking stages add, to within their jitter. */
  lemma {:induction false} DelayBounds(env: Env, acc: Account, l: Lineage, k: nat)
    requires l.Valid(env, acc) && k < |l.path|
    ensures LeastDelay(env, acc, l, k) <= l.path[k].delay <= MostDelay(env, acc, l, k)
    ensures Unjittered(l.ing.policy.plan) ==> LeastDelay(env, acc, l, k) == MostDelay(env, acc, l, k)
  {
    if k > 0 {
      DelayBounds(env, acc, l, k - 1);
      assert Step(env, l.ing, k - 1, acc, l.path[k - 1], l.path[k]);
    }
  }

  /** What the stages certain to strike add at least. */
  function CertainDelay(plan: seq<Fault>): nat {
    if plan == [] then 0
    else
      var f := plan[|plan| - 1];
      CertainDelay(plan[..|plan| - 1]) + if f.probability >= 1.0 then Least(f.kind) else 0
  }

  lemma {:induction false} CertainlyDelayed(env: Env, acc: Account, l: Lineage, k: nat)
    requires l.Valid(env, acc) && k < |l.path|
    ensures CertainDelay(l.ing.policy.plan[..k]) <= LeastDelay(env, acc, l, k)
  {
    if k > 0 {
      CertainlyDelayed(env, acc, l, k - 1);
      assert l.ing.policy.plan[..k][..k - 1] == l.ing.policy.plan[..k - 1];
    }
  }

  lemma {:induction false} DelayGrows(env: Env, acc: Account, l: Lineage, i: nat, k: nat)
    requires l.Valid(env, acc) && i <= k < |l.path|
    ensures l.path[i].delay <= l.path[k].delay
  {
    if i < k {
      DelayGrows(env, acc, l, i, k - 1);
      assert Step(env, l.ing, k - 1, acc, l.path[k - 1], l.path[k]);
    }
  }

  // --- The queue and what leaves ---

  function Arrivals(ops: seq<Op>): nat {
    if ops == [] then 0 else Arrivals(ops[..|ops| - 1]) + if ops[|ops| - 1].Receive? then 1 else 0
  }

  /** The ingress is that of an arrival of the run. */
  ghost predicate Arrived(ops: seq<Op>, ing: Ingress, payload: seq<Byte>) {
    exists i :: 0 <= i < |ops| && ops[i] == Receive(ing.now, payload, ing.policy) && ing.ordinal == Arrivals(ops[..i])
  }

  /** The lineage, from an arrival of the run through every stage, made this candidate: its bytes and copy
      number, due when the accumulated delay has passed. */
  ghost predicate Made(env: Env, ops: seq<Op>, acc: Account, l: Lineage, c: Candidate) {
    var n := |l.ing.policy.plan|;
    && Arrived(ops, l.ing, l.payload) && l.Reaches(env, acc, n)
    && c == Candidate(l.ing.now + l.path[n].delay, l.ing.ordinal, l.path[n].copy, l.path[n].payload,
                      l.ing.policy.generation)
  }

  ghost predicate Born(env: Env, ops: seq<Op>, acc: Account, c: Candidate) {
    exists l: Lineage :: Made(env, ops, acc, l, c)
  }

  ghost predicate AllBorn(env: Env, ops: seq<Op>, acc: Account, q: seq<Candidate>) {
    forall i :: 0 <= i < |q| ==> Born(env, ops, acc, q[i])
  }

  /** A datagram handed to the transport, and when. */
  datatype Sent = Sent(at: nat, item: Scheduled)

  ghost predicate Due(env: Env, ops: seq<Op>, acc: Account, x: Sent, c: Candidate) {
    Born(env, ops, acc, c) && c.at <= x.at && x.item == Scheduled(c.payload, c.ordinal, c.copy, c.generation)
  }

  /** It is a candidate of the run that had become due. */
  ghost predicate Timely(env: Env, ops: seq<Op>, acc: Account, x: Sent) {
    exists c: Candidate :: Due(env, ops, acc, x, c)
  }

  ghost predicate AllTimely(env: Env, ops: seq<Op>, acc: Account, now: nat, out: seq<Scheduled>) {
    forall i :: 0 <= i < |out| ==> Timely(env, ops, acc, Sent(now, out[i]))
  }

  lemma {:induction false} ItemBorn(env: Env, ops: seq<Op>, acc: Account, ing: Ingress, payload: seq<Byte>, it: Item)
    requires Arrived(ops, ing, payload) && Descends(env, ing, payload, acc, |ing.policy.plan|, it)
    ensures Born(env, ops, acc, CandidateOf(ing, it))
  {
    var n := |ing.policy.plan|;
    var path :| Lineage(ing, payload, path).Reaches(env, acc, n) && path[n] == it;
    assert Made(env, ops, acc, Lineage(ing, payload, path), CandidateOf(ing, it));
  }

  lemma {:induction false} InsertBorn(env: Env, ops: seq<Op>, acc: Account, q: seq<Candidate>, c: Candidate)
    requires AllBorn(env, ops, acc, q) && Born(env, ops, acc, c)
    ensures AllBorn(env, ops, acc, Insert(q, c))
  {
    forall i | 0 <= i < |Insert(q, c)| ensures Born(env, ops, acc, Insert(q, c)[i]) {
      InsertElements(q, c, i);
    }
  }

  lemma {:induction false} EnqueueBorn(env: Env, ops: seq<Op>, acc: Account, ing: Ingress, payload: seq<Byte>, s: State,
                                       items: seq<Item>)
    requires Arrived(ops, ing, payload) && AllDescend(env, ing, payload, acc, |ing.policy.plan|, items)
    requires AllBorn(env, ops, acc, s.queue)
    ensures AllBorn(env, ops, acc, EnqueueAll(env.limits, ing, s, items).queue)
    decreases |items|
  {
    if items != [] {
      ItemBorn(env, ops, acc, ing, payload, items[0]);
      InsertBorn(env, ops, acc, s.queue, CandidateOf(ing, items[0]));
      EnqueueBorn(env, ops, acc, ing, payload, EnqueueOrDrop(env.limits, ing, s, items[0]), items[1..]);
    }
  }

  lemma {:induction false} InsertTimely(env: Env, ops: seq<Op>, acc: Account, now: nat, out: seq<Scheduled>,
                                        x: Scheduled)
    requires AllTimely(env, ops, acc, now, out) && Timely(env, ops, acc, Sent(now, x))
    ensures AllTimely(env, ops, acc, now, InsertScheduled(out, x))
  {
    if out != [] && out[0].copy <= x.copy {
      InsertTimely(env, ops, acc, now, out[1..], x);
    }
  }

  lemma {:induction false} SortedTimely(env: Env, ops: seq<Op>, acc: Account, ing: Ingress, payload: seq<Byte>,
                                        out: seq<Scheduled>, items: seq<Item>)
    requires Arrived(ops, ing, payload) && AllDescend(env, ing, payload, acc, |ing.policy.plan|, items)
    requires AllUndelayed(items) && AllTimely(env, ops, acc, ing.now, out)
    ensures AllTimely(env, ops, acc, ing.now, SortedItems(ing, out, items))
    decreases |items|
  {
    if items != [] {
      var c := CandidateOf(ing, items[0]);
      ItemBorn(env, ops, acc, ing, payload, items[0]);
      assert Due(env, ops, acc, Sent(ing.now, AsScheduled(c)), c);
      InsertTimely(env, ops, acc, ing.now, out, AsScheduled(c));
      SortedTimely(env, ops, acc, ing, payload, InsertScheduled(out, AsScheduled(c)), items[1..]);
    }
  }

  lemma {:induction false} ReadyTimely(env: Env, ops: seq<Op>, acc: Account, s: State, now: nat)
    requires AllBorn(env, ops, acc, s.queue)
    ensures AllBorn(env, ops, acc, Ready(s, now).0.queue) && AllTimely(env, ops, acc, now, Ready(s, now).1)
    decreases |s.queue|
  {
    if s.queue != [] && s.queue[0].at <= now {
      assert Due(env, ops, acc, Sent(now, AsScheduled(s.queue[0])), s.queue[0]);
      ReadyTimely(env, ops, acc, Popped(s), now);
    }
  }

  // --- One admission ---

  lemma {:induction false} ObservedServing(acc: Account, s: State, policy: Policy, reqs: seq<Request>,
                                           next: seq<Request>)
    requires Follows(acc, policy.plan) && Serving(acc, s.buckets, reqs, next)
    ensures Serving(acc, Observed(s, policy).buckets, reqs, next)
  {
    if acc.Metered? {
      assert BucketOf(Observed(s, policy).buckets, acc.id) == BucketOf(s.buckets, acc.id);
    }
  }

  /** The surviving candidates of one admission descend from its arrival. */
  lemma {:induction false} PipelineDescends(env: Env, acc: Account, s: State, now: nat, payload: seq<Byte>,
                                            policy: Policy, reqs: seq<Request>, more: seq<Request>)
    requires |payload| <= env.limits.maxDatagramBytes && Follows(acc, policy.plan)
    requires Serving(acc, s.buckets, reqs, AdmitCharges(env, s, now, payload, policy, Watched(acc)) + more)
    ensures var ing := Ingress(now, s.ordinal, policy);
            var w := Pipeline(env, ing, Observed(Counted(s, |payload|), policy), payload);
            && AllDescend(env, ing, payload, acc, |policy.plan|, w.items)
            && Serving(acc, w.buckets, reqs + AdmitCharges(env, s, now, payload, policy, Watched(acc)), more)
  {
    var ing := Ingress(now, s.ordinal, policy);
    var s2 := Observed(Counted(s, |payload|), policy);
    var first := Work([Item(0, payload, 0)], 1, s2.ev, s2.buckets);
    ObservedServing(acc, Counted(s, |payload|), policy, reqs,
                    AdmitCharges(env, s, now, payload, policy, Watched(acc)) + more);
    var path := [Item(0, payload, 0)];
    assert Lineage(ing, payload, path).Reaches(env, acc, 0) && path[0] == Item(0, payload, 0);
    StagesDescend(env, ing, payload, acc, 0, first, reqs, more);
  }

  lemma {:induction false} AdmitTimely(env: Env, ops: seq<Op>, acc: Account, s: State, now: nat, payload: seq<Byte>,
                                       policy: Policy, reqs: seq<Request>, more: seq<Request>)
    requires Follows(acc, policy.plan) && Arrived(ops, Ingress(now, s.ordinal, policy), payload)
    requires Serving(acc, s.buckets, reqs, AdmitCharges(env, s, now, payload, policy, Watched(acc)) + more)
    requires AllBorn(env, ops, acc, s.queue)
    ensures var (t, a) := Admit(env, s, now, payload, policy);
            && AllBorn(env, ops, acc, t.queue) && AllTimely(env, ops, acc, now, Handed(a))
            && Serving(acc, t.buckets, reqs + AdmitCharges(env, s, now, payload, policy, Watched(acc)), more)
  {
    if |payload| > env.limits.maxDatagramBytes {
      assert reqs + [] == reqs && [] + more == more;
    } else {
      var ing := Ingress(now, s.ordinal, policy);
      var s2 := Observed(Counted(s, |payload|), policy);
      var w := Pipeline(env, ing, s2, payload);
      var s3 := s2.(ev := w.ev, buckets := w.buckets);
      PipelineDescends(env, acc, s, now, payload, policy, reqs, more);
      AdmitShape(env, s, now, payload, policy);
      ScheduledBuckets(env.limits, ing, s3, w.items);
      if Admit(env, s, now, payload, policy).1.Immediate? {
        SortedTimely(env, ops, acc, ing, payload, [], w.items);
        EmitQueue(s3, w.items);
      } else {
        EnqueueBorn(env, ops, acc, ing, payload, s3, w.items);
      }
    }
  }

  lemma {:induction false} EmitQueue(s: State, items: seq<Item>)
    ensures EmitAll(s, items).queue == s.queue
    decreases |items|
  {
    if items != [] {
      EmitQueue(EmittedNow(s, |items[0].payload|), items[1..]);
    }
  }

  // --- Every run ---

  /** What one operation hands to the transport. */
  function HandedBy(env: Env, t: Trace, op: Op): seq<Scheduled> {
    match op
    case Receive(now, payload, policy) => Handed(Admit(env, t.s, now, payload, policy).1)
    case Drain(now) => Ready(t.s, now).1
  }

  function Stamp(now: nat, out: seq<Scheduled>): seq<Sent> {
    seq(|out|, i requires 0 <= i < |out| => Sent(now, out[i]))
  }

  /** Everything a run hands to the transport, with its time. */
  function Emissions(env: Env, t: Trace, ops: seq<Op>): seq<Sent>
    decreases |ops|
  {
    if ops == [] then []
    else Stamp(ops[0].now, HandedBy(env, t, ops[0])) + Emissions(env, Exec(env, t, ops[0]), ops[1..])
  }

  function Items(sent: seq<Sent>): seq<Scheduled> {
    seq(|sent|, i requires 0 <= i < |sent| => sent[i].item)
  }

  lemma {:induction false} ItemsConcat(log: seq<Scheduled>, now: nat, out: seq<Scheduled>, more: seq<Sent>)
    ensures (log + out) + Items(more) == log + Items(Stamp(now, out) + more)
  {
  }

  /** The timed emissions of a run are its log. */
  lemma {:induction false} EmissionsAreLog(env: Env, t: Trace, ops: seq<Op>)
    ensures Run(env, t, ops).log == t.log + Items(Emissions(env, t, ops))
    decreases |ops|
  {
    if ops != [] {
      var out := HandedBy(env, t, ops[0]);
      var u := Exec(env, t, ops[0]);
      assert u.log == t.log + out;
      EmissionsAreLog(env, u, ops[1..]);
      ItemsConcat(t.log, ops[0].now, out, Emissions(env, u, ops[1..]));
    }
  }

  ghost predicate TimelyAll(env: Env, ops: seq<Op>, acc: Account, sent: seq<Sent>) {
    forall i :: 0 <= i < |sent| ==> Timely(env, ops, acc, sent[i])
  }

  lemma {:induction false} StampTimely(env: Env, ops: seq<Op>, acc: Account, now: nat, out: seq<Scheduled>,
                                       more: seq<Sent>)
    requires AllTimely(env, ops, acc, now, out) && TimelyAll(env, ops, acc, more)
    ensures TimelyAll(env, ops, acc, Stamp(now, out) + more)
  {
  }

  lemma {:induction false} ScheduledOrdinal(l: Limits, ing: Ingress, s: State, items: seq<Item>)
    ensures EnqueueAll(l, ing, s, items).ordinal == s.ordinal && EmitAll(s, items).ordinal == s.ordinal
    decreases |items|
  {
    if items != [] {
      ScheduledOrdinal(l, ing, EnqueueOrDrop(l, ing, s, items[0]), items[1..]);
      ScheduledOrdinal(l, ing, EmittedNow(s, |items[0].payload|), items[1..]);
    }
  }

  lemma {:induction false} AdmitOrdinal(env: Env, s: State, now: nat, payload: seq<Byte>, policy: Policy)
    ensures Admit(env, s, now, payload, policy).0.ordinal == s.ordinal + 1
  {
    if |payload| <= env.limits.maxDatagramBytes {
      AdmitShape(env, s, now, payload, policy);
      var ing := Ingress(now, s.ordinal, policy);
      var s2 := Observed(Counted(s, |payload|), policy);
      var w := Pipeline(env, ing, s2, payload);
      ScheduledOrdinal(env.limits, ing, s2.(ev := w.ev, buckets := w.buckets), w.items);
    }
  }

  lemma {:induction false} ReadyOrdinal(s: State, now: nat)
    ensures Ready(s, now).0.ordinal == s.ordinal
    decreases |s.queue|
  {
    if s.queue != [] && s.queue[0].at <= now {
      ReadyOrdinal(Popped(s), now);
    }
  }

  lemma {:induction false} ExecOrdinal(env: Env, t: Trace, op: Op, past: seq<Op>)
    requires t.s.ordinal == Arrivals(past)
    ensures Exec(env, t, op).s.ordinal == Arrivals(past + [op])
  {
    assert (past + [op])[..|past|] == past;
    match op {
      case Receive(now, payload, policy) => AdmitOrdinal(env, t.s, now, payload, policy);
      case Drain(now) => ReadyOrdinal(t.s, now);
    }
  }

  lemma {:induction false} OpTimely(env: Env, ops: seq<Op>, i: nat, acc: Account, t: Trace, reqs: seq<Request>,
                                    more: seq<Request>)
    requires i < |ops| && t.s.ordinal == Arrivals(ops[..i]) && AllBorn(env, ops, acc, t.s.queue)
    requires ops[i].Receive? ==> Follows(acc, ops[i].policy.plan)
    requires Serving(acc, t.s.buckets, reqs, OpCharges(env, t, ops[i], Watched(acc)) + more)
    ensures AllTimely(env, ops, acc, ops[i].now, HandedBy(env, t, ops[i]))
    ensures var u := Exec(env, t, ops[i]);
            && AllBorn(env, ops, acc, u.s.queue)
            && Serving(acc, u.s.buckets, reqs + OpCharges(env, t, ops[i], Watched(acc)), more)
  {
    match ops[i] {
      case Receive(now, payload, policy) =>
        assert Arrived(ops, Ingress(now, t.s.ordinal, policy), payload);
        AdmitTimely(env, ops, acc, t.s, now, payload, policy, reqs, more);
      case Drain(now) =>
        ReadyTimely(env, ops, acc, t.s, now);
        ReadyBuckets(t.s, now);
        assert reqs + [] == reqs && [] + more == more;
    }
  }

  lemma {:induction false} RunFrom(env: Env, t: Trace, ops: seq<Op>, i: nat, id: string)
    requires i < |ops|
    ensures var u := Exec(env, t, ops[i]);
            && Run(env, t, ops[i..]) == Run(env, u, ops[i + 1..])
            && Emissions(env, t, ops[i..])
                 == Stamp(ops[i].now, HandedBy(env, t, ops[i])) + Emissions(env, u, ops[i + 1..])
            && RunCharges(env, t, ops[i..], id) == OpCharges(env, t, ops[i], id) + RunCharges(env, u, ops[i + 1..], id)
            && ops[..i] + [ops[i]] == ops[..i + 1]
  {
    assert ops[i..][0] == ops[i] && ops[i..][1..] == ops[i + 1..];
  }

  /** From operation i on. */
  lemma {:induction false} RunTimely(env: Env, ops: seq<Op>, i: nat, acc: Account, t: Trace, reqs: seq<Request>)
    requires i <= |ops| && t.s.ordinal == Arrivals(ops[..i]) && AllBorn(env, ops, acc, t.s.queue)
    requires acc.Metered? ==> KeepsAlong(ops, acc.id, acc.rate, acc.burst)
    requires Serving(acc, t.s.buckets, reqs, RunCharges(env, t, ops[i..], Watched(acc)))
    ensures TimelyAll(env, ops, acc, Emissions(env, t, ops[i..]))
    ensures AllBorn(env, ops, acc, Run(env, t, ops[i..]).s.queue)
    decreases |ops| - i
  {
    if i < |ops| {
      var u := Exec(env, t, ops[i]);
      RunFrom(env, t, ops, i, Watched(acc));
      var more := RunCharges(env, u, ops[i + 1..], Watched(acc));
      OpTimely(env, ops, i, acc, t, reqs, more);
      ExecOrdinal(env, t, ops[i], ops[..i]);
      RunTimely(env, ops, i + 1, acc, u, reqs + OpCharges(env, t, ops[i], Watched(acc)));
      StampTimely(env, ops, acc, ops[i].now, HandedBy(env, t, ops[i]), Emissions(env, u, ops[i + 1..]));
    }
  }

  /** The account watches the run: it holds every charge the run makes to a bandwidth fault it keeps. */
  ghost predicate Watches(env: Env, ops: seq<Op>, acc: Account) {
    acc.Metered? ==>
      KeepsAlong(ops, acc.id, acc.rate, acc.burst) && acc.all == RunCharges(env, Trace(START, []), ops, acc.id)
  }

  /** Every datagram a fresh engine hands out had become due by then, and every datagram queued or handed out
      was made of an arrival of the run by the stages of the policy it arrived under. */
  lemma {:induction false} EngineTimely(env: Env, ops: seq<Op>, acc: Account)
    requires Watches(env, ops, acc)
    ensures Run(env, Trace(START, []), ops).log == Items(Emissions(env, Trace(START, []), ops))
    ensures TimelyAll(env, ops, acc, Emissions(env, Trace(START, []), ops))
    ensures AllBorn(env, ops, acc, Run(env, Trace(START, []), ops).s.queue)
  {
    assert ops[0..] == ops && ops[..0] == [];
    EmissionsAreLog(env, Trace(START, []), ops);
    var reqs := RunCharges(env, Trace(START, []), ops, Watched(acc));
    assert [] + reqs == reqs;
    RunTimely(env, ops, 0, acc, Trace(START, []), []);
  }

  /** The watched fault strikes the lineage at stage k. */
  ghost predicate MustPay(env: Env, acc: Account, l: Lineage, k: nat)
    requires acc.Metered? && k < |l.ing.policy.plan| && k < |l.path|
  {
    var f := l.ing.policy.plan[k];
    f.kind.Bandwidth? && f.id == acc.id && Struck(env, l.ing, k, l.path[k].copy)
  }

  /** Stage k of the lineage charged the watched account, and the release of the charge is not after `at`. */
  ghost predicate PaidBy(acc: Account, l: Lineage, k: nat, at: nat)
    requires acc.Metered? && k + 1 < |l.path|
  {
    exists m: nat :: Pays(acc, m, l.ing, l.path[k], l.path[k + 1]) && Release(acc.all, m, acc.rate, acc.burst) <= at
  }

  /** The delays of a complete lineage: its candidate is due when what the striking stages add has passed, to
      within their jitter; no loss struck it; and it is due no sooner than the bandwidth fault under watch
      releases its charge. */
  lemma {:induction false} MadeMeans(env: Env, ops: seq<Op>, acc: Account, l: Lineage, c: Candidate)
    requires Made(env, ops, acc, l, c)
    ensures var (n, plan) := (|l.ing.policy.plan|, l.ing.policy.plan);
            && l.ing.now + LeastDelay(env, acc, l, n) <= c.at <= l.ing.now + MostDelay(env, acc, l, n)
            && (Unjittered(plan) ==> c.at == l.ing.now + LeastDelay(env, acc, l, n))
            && l.ing.now + CertainDelay(plan) <= c.at
            && (forall k :: 0 <= k < n && plan[k].kind.Loss? ==> !Struck(env, l.ing, k, l.path[k].copy))
            && (acc.Metered? ==>
                  forall k :: 0 <= k < n && MustPay(env, acc, l, k) ==> PaidBy(acc, l, k, c.at))
  {
    var n, plan := |l.ing.policy.plan|, l.ing.policy.plan;
    assert plan[..n] == plan;
    DelayBounds(env, acc, l, n);
    CertainlyDelayed(env, acc, l, n);
    forall k | 0 <= k < n && plan[k].kind.Loss? ensures !Struck(env, l.ing, k, l.path[k].copy) {
      assert Step(env, l.ing, k, acc, l.path[k], l.path[k + 1]);
    }
    if acc.Metered? {
      forall k | 0 <= k < n && MustPay(env, acc, l, k) ensures PaidBy(acc, l, k, c.at) {
        assert Step(env, l.ing, k, acc, l.path[k], l.path[k + 1]);
        DelayGrows(env, acc, l, k + 1, n);
        var m: nat :| Pays(acc, m, l.ing, l.path[k], l.path[k + 1]);
      }
    }
  }

  /** No datagram of a run from a fresh engine leaves before its delays: emission i has a lineage from an
      arrival of the run, carries the bytes the lineage ends with, and leaves no earlier than MadeMeans says. */
  lemma {:induction false} NothingEarly(env: Env, ops: seq<Op>, acc: Account, i: nat) returns (l: Lineage, c: Candidate)
    requires Watches(env, ops, acc) && i < |Emissions(env, Trace(START, []), ops)|
    ensures Made(env, ops, acc, l, c)
    ensures var x := Emissions(env, Trace(START, []), ops)[i];
            && c.at <= x.at && x.item == Scheduled(c.payload, c.ordinal, c.copy, c.generation)
            && l.ing.now + LeastDelay(env, acc, l, |l.ing.policy.plan|) <= x.at
            && l.ing.now + CertainDelay(l.ing.policy.plan) <= x.at
  {
    EngineTimely(env, ops, acc);
    var x := Emissions(env, Trace(START, []), ops)[i];
    c :| Due(env, ops, acc, x, c);
    l :| Made(env, ops, acc, l, c);
    MadeMeans(env, ops, acc, l, c);
  }

  /** By the time `at`, the bytes of charges i..m are at most one allowance plus what the rate earned since
      the release of charge i. */
  ghost predicate WithinRate(acc: Account, i: nat, m: nat, at: nat)
    requires acc.Metered? && i <= m < |acc.all|
  {
    var from := Release(acc.all, i, acc.rate, acc.burst);
    && from <= at
    && Volume(acc.all, i, m) * NANOS <= Max(acc.burst, acc.all[i].bytes) * NANOS + acc.rate * (at - from)
  }

  lemma {:induction false} Later(volume: nat, allowance: nat, rate: pos, from: nat, until: nat, at: nat)
    requires from <= until <= at && volume <= allowance + rate * (until - from)
    ensures volume <= allowance + rate * (at - from)
  {
    Chain(rate, from, until, at);
    assert rate * (at - until) >= 0;
  }

  lemma {:induction false} LaterWithinRate(acc: Account, i: nat, m: nat, at: nat)
    requires acc.Metered? && i <= m < |acc.all| && Conforms(acc.all, i, m, acc.rate, acc.burst)
    requires Release(acc.all, m, acc.rate, acc.burst) <= at
    ensures WithinRate(acc, i, m, at)
  {
    Later(Volume(acc.all, i, m) * NANOS, Max(acc.burst, acc.all[i].bytes) * NANOS, acc.rate,
          Release(acc.all, i, acc.rate, acc.burst), Release(acc.all, m, acc.rate, acc.burst), at);
  }

  /** Bandwidth as the transport sees it: a datagram that was charged leaves only after the release of its
      charge m, when for every earlier charge i the bytes of i..m are within the allowance and the rate since
      the release of i. So a window whose first datagram leaves on time conforms at the times of leaving. */
  lemma {:induction false} LeavingConforms(env: Env, ops: seq<Op>, acc: Account, l: Lineage, c: Candidate, k: nat,
                                           at: nat)
      returns (m: nat)
    requires acc.Metered? && ValidLimits(env.limits) && Watches(env, ops, acc)
    requires Made(env, ops, acc, l, c) && c.at <= at && k < |l.ing.policy.plan| && MustPay(env, acc, l, k)
    ensures Pays(acc, m, l.ing, l.path[k], l.path[k + 1])
    ensures Release(acc.all, m, acc.rate, acc.burst) <= at
    ensures forall i :: 0 <= i <= m ==> WithinRate(acc, i, m, at)
  {
    MadeMeans(env, ops, acc, l, c);
    m :| Pays(acc, m, l.ing, l.path[k], l.path[k + 1]) && Release(acc.all, m, acc.rate, acc.burst) <= c.at;
    forall i | 0 <= i <= m ensures WithinRate(acc, i, m, at) {
      EngineConforms(env, ops, acc.id, acc.rate, acc.burst, i, m);
      LaterWithinRate(acc, i, m, at);
    }
  }

  // --- What is dropped ---

  /** Candidates are dropped only for want of room: every candidate not queued is counted as overflow, the
      answer says whether one was queued, and with room for all of them each is. */
  lemma {:induction false} OverflowExact(l: Limits, ing: Ingress, s: State, items: seq<Item>)
    ensures var t := EnqueueAll(l, ing, s, items);
            && |s.queue| <= |t.queue|
            && t.ev.overflow + |t.queue| == s.ev.overflow + |s.queue| + |items|
            && (AnyFits(l, ing, s, items) <==> |t.queue| > |s.queue|)
            && (FitsAll(l, s, |items|, ItemBytes(items)) ==>
                  t.ev.overflow == s.ev.overflow && Keys(t.queue) == Keys(s.queue) + ItemKeys(ing.ordinal, items))
    decreases |items|
  {
    if items != [] {
      InsertKeys(s.queue, CandidateOf(ing, items[0]));
      OverflowExact(l, ing, EnqueueOrDrop(l, ing, s, items[0]), items[1..]);
    }
  }

  ghost predicate Lossless(plan: seq<Fault>) {
    forall i :: 0 <= i < |plan| ==> !plan[i].kind.Loss?
  }

  lemma {:induction false} StageLossless(env: Env, ing: Ingress, k: nat, rest: seq<Item>, w: Work)
    requires k < |ing.policy.plan| && !ing.policy.plan[k].kind.Loss?
    ensures var v := Stage(env, ing, k, rest, w); v.ev.loss == w.ev.loss && |v.items| >= |w.items| + |rest|
    decreases |rest|
  {
    if rest != [] {
      var out := ApplyOutcome(env, ing, k, rest[0], w);
      StageLossless(env, ing, k, rest[1..], ApplyFault(env, ing, k, ing.policy.plan[k], rest[0], w));
    }
  }

  lemma {:induction false} StagesLossless(env: Env, ing: Ingress, k: nat, w: Work)
    requires k <= |ing.policy.plan| && Lossless(ing.policy.plan)
    ensures var v := Stages(env, ing, k, w); v.ev.loss == w.ev.loss && |v.items| >= |w.items|
    decreases |ing.policy.plan| - k
  {
    if k < |ing.policy.plan| {
      StageLossless(env, ing, k, w.items, w.(items := []));
      StagesLossless(env, ing, k + 1, Stage(env, ing, k, w.items, w.(items := [])));
    }
  }

  /** Only a loss fault loses: without one the datagram and all its copies survive the stages; with a certain
      one nothing does, and as much is counted lost as was admitted or copied. */
  lemma {:induction false} LossFaultsOnly(env: Env, ing: Ingress, s: State, payload: seq<Byte>)
    requires ValidPlan(ing.policy.plan)
    ensures var w := Pipeline(env, ing, s, payload);
            && (Lossless(ing.policy.plan) ==>
                  w.ev.loss == s.ev.loss && |w.items| == 1 + w.ev.duplicated - s.ev.duplicated)
            && (forall k :: 0 <= k < |ing.policy.plan| && CertainLoss(ing.policy.plan[k]) ==>
                w.items == [] && w.ev.loss - s.ev.loss == 1 + w.ev.duplicated - s.ev.duplicated)
  {
    var first := Work([Item(0, payload, 0)], 1, s.ev, s.buckets);
    var w := Pipeline(env, ing, s, payload);
    BoundedDuplication(env, ing, s, payload);
    if Lossless(ing.policy.plan) {
      StagesLossless(env, ing, 0, first);
    }
    var path := [Item(0, payload, 0)];
    assert Lineage(ing, payload, path).Reaches(env, Unmetered, 0) && path[0] == Item(0, payload, 0);
    StagesDescend(env, ing, payload, Unmetered, 0, first, [], []);
    forall k | 0 <= k < |ing.policy.plan| && CertainLoss(ing.policy.plan[k]) ensures w.items == [] {
      if w.items != [] {
        SurvivesNoLoss(env, ing, payload, k, w.items[0]);
      }
    }
  }

  ghost predicate CertainLoss(f: Fault) { f.kind.Loss? && f.probability >= 1.0 }

  lemma {:induction false} SurvivesNoLoss(env: Env, ing: Ingress, payload: seq<Byte>, k: nat, it: Item)
    requires k < |ing.policy.plan| && Descends(env, ing, payload, Unmetered, |ing.policy.plan|, it)
    ensures !CertainLoss(ing.policy.plan[k])
  {
    var n := |ing.policy.plan|;
    var path :| Lineage(ing, payload, path).Reaches(env, Unmetered, n) && path[n] == it;
    assert Step(env, ing, k, Unmetered, path[k], path[k + 1]);
  }

  // --- Buckets of vanished faults ---

  lemma {:induction false} StageBuckets(env: Env, ing: Ingress, k: nat, rest: seq<Item>, w: Work, id: string)
    requires k < |ing.policy.plan| && ing.policy.plan[k].id != id
    ensures BucketOf(Stage(env, ing, k, rest, w).buckets, id) == BucketOf(w.buckets, id)
    decreases |rest|
  {
    if rest != [] {
      var v := ApplyFault(env, ing, k, ing.policy.plan[k], rest[0], w);
      assert BucketOf(v.buckets, id) == BucketOf(w.buckets, id);
      StageBuckets(env, ing, k, rest[1..], v, id);
    }
  }

  lemma {:induction false} StagesBuckets(env: Env, ing: Ingress, k: nat, w: Work, id: string)
    requires k <= |ing.policy.plan| && (forall i :: 0 <= i < |ing.policy.plan| ==> ing.policy.plan[i].id != id)
    ensures BucketOf(Stages(env, ing, k, w).buckets, id) == BucketOf(w.buckets, id)
    decreases |ing.policy.plan| - k
  {
    if k < |ing.policy.plan| {
      StageBuckets(env, ing, k, w.items, w.(items := []), id);
      StagesBuckets(env, ing, k + 1, Stage(env, ing, k, w.items, w.(items := [])), id);
    }
  }

  /** A fault missing from the plan has no bucket left after the first admission under a new generation, so
      that it starts afresh when it returns; within a generation its bucket is kept. */
  lemma {:induction false} VanishedForgotten(env: Env, s: State, now: nat, payload: seq<Byte>, policy: Policy,
                                             id: string)
    requires |payload| <= env.limits.maxDatagramBytes
    requires forall i :: 0 <= i < |policy.plan| ==> policy.plan[i].id != id
    ensures BucketOf(Admit(env, s, now, payload, policy).0.buckets, id)
         == if policy.generation != s.bucketsGeneration then None else BucketOf(s.buckets, id)
  {
    var ing := Ingress(now, s.ordinal, policy);
    var s2 := Observed(Counted(s, |payload|), policy);
    var w := Pipeline(env, ing, s2, payload);
    StagesBuckets(env, ing, 0, Work([Item(0, payload, 0)], 1, s2.ev, s2.buckets), id);
    AdmitShape(env, s, now, payload, policy);
    ScheduledBuckets(env.limits, ing, s2.(ev := w.ev, buckets := w.buckets), w.items);
  }

  // --- The order of leaving ---

  /** Earlier releases leave first; of equal releases the earlier arrival, and of its copies the lower number. */
  ghost predicate LeavesBefore(a: Candidate, b: Candidate) {
    || a.at < b.at
    || (a.at == b.at && a.ordinal < b.ordinal)
    || (a.at == b.at && a.ordinal == b.ordinal && a.copy < b.copy)
  }

  lemma {:induction false} EmissionAt(q: seq<Candidate>, i: nat)
    requires i < |q|
    ensures |Emission(q)| == |q| && Emission(q)[i] == Scheduled(q[i].payload, q[i].ordinal, q[i].copy, q[i].generation)
  {
    if |q| > 1 {
      EmissionAt(q[1..], if i > 0 then i - 1 else 0);
    }
  }

  /** The drain hands out `due`, the front of the queue, in order of leaving. */
  ghost predicate HandsOut(s: State, now: nat, due: seq<Candidate>) {
    var (t, out) := Ready(s, now);
    && s.queue == due + t.queue && |out| == |due|
    && (forall i :: 0 <= i < |due| ==>
        due[i].at <= now && out[i] == Scheduled(due[i].payload, due[i].ordinal, due[i].copy, due[i].generation))
    && (forall i :: 0 <= i < |t.queue| ==> now < t.queue[i].at)
    && (forall i, j :: 0 <= i < j < |due| ==> LeavesBefore(due[i], due[j]))
  }

  lemma {:induction false} EmissionIs(q: seq<Candidate>)
    ensures |Emission(q)| == |q|
    ensures forall i :: 0 <= i < |q| ==>
            Emission(q)[i] == Scheduled(q[i].payload, q[i].ordinal, q[i].copy, q[i].generation)
  {
    if q != [] {
      EmissionAt(q, 0);
    }
    forall i | 0 <= i < |q|
      ensures Emission(q)[i] == Scheduled(q[i].payload, q[i].ordinal, q[i].copy, q[i].generation)
    {
      EmissionAt(q, i);
    }
  }

  lemma {:induction false} PrefixOrder(q: seq<Candidate>, now: nat, k: nat)
    requires Ordered(q) && DuePrefix(q, now, k)
    ensures q == q[..k] + q[k..]
    ensures forall i :: 0 <= i < k ==> q[..k][i].at <= now
    ensures forall i :: 0 <= i < |q[k..]| ==> now < q[k..][i].at
    ensures forall i, j :: 0 <= i < j < k ==> LeavesBefore(q[..k][i], q[..k][j])
  {
    forall i | 0 <= i < |q[k..]| ensures now < q[k..][i].at {
      assert q[k..][i] == q[k + i];
    }
  }

  lemma {:induction false} ReadyOrder(s: State, now: nat) returns (due: seq<Candidate>)
    requires Ordered(s.queue)
    ensures HandsOut(s, now, due)
  {
    var k := ReadyTakesDue(s, now);
    due := s.queue[..k];
    PrefixOrder(s.queue, now, k);
    EmissionIs(due);
  }

  /** In every reachable state, what a drain hands out are the queue's due candidates in order of leaving. */
  lemma {:induction false} DrainOrder(env: Env, ops: seq<Op>, now: nat) returns (due: seq<Candidate>)
    requires ValidOps(ops)
    ensures HandsOut(Run(env, Trace(START, []), ops).s, now, due)
  {
    RunKeeps(env, Trace(START, []), ops);
    due := ReadyOrder(Run(env, Trace(START, []), ops).s, now);
  }

  // --- Late drains bunch ---

  /** A certain bandwidth fault of one byte a second. */
  const THROTTLE: seq<Fault> := [Fault("throttle", 1.0, Bandwidth(1, 1))]

  /** One stage, one candidate. */
  lemma {:induction false} ThrottledPipeline(env: Env, ing: Ingress, s: State, b: Byte)
    requires ing.policy.plan == THROTTLE
    ensures var (bucket, wait) := Charge(BucketOf(s.buckets, "throttle"), ing.now, 1, 1, 1);
            var w := Pipeline(env, ing, s, [b]);
            && w.items == [Item(0, [b], wait)] && w.buckets == s.buckets["throttle" := bucket]
            && w.ev.queuedBytes == s.ev.queuedBytes
  {
    var it := Item(0, [b], 0);
    var first := Work([it], 1, s.ev, s.buckets);
    var u := first.(items := []);
    var v := ApplyFault(env, ing, 0, THROTTLE[0], it, u);
    assert [it][1..] == [];
    assert Stage(env, ing, 0, [it], u) == Stage(env, ing, 0, [it][1..], v) == v;
    assert Stages(env, ing, 0, first) == Stages(env, ing, 1, v) == v;
    assert v.items == [Item(0, [b], Charge(BucketOf(s.buckets, "throttle"), ing.now, 1, 1, 1).1)];
  }

  /** A byte that finds the bucket empty is queued for one second after the release before it. */
  lemma {:induction false} ThrottledQueues(env: Env, s: State, b: Byte, policy: Policy, u: nat)
    requires policy.plan == THROTTLE && policy.generation == s.bucketsGeneration
    requires BucketOf(s.buckets, "throttle") == Some(Bucket(0, u)) && Fits(env.limits, s, 1)
    ensures var t := Admit(env, s, 0, [b], policy).0;
            && t.queue == Insert(s.queue, Candidate(u + NANOS, s.ordinal, 0, [b], policy.generation))
            && BucketOf(t.buckets, "throttle") == Some(Bucket(0, u + NANOS))
            && t.bucketsGeneration == s.bucketsGeneration && t.ordinal == s.ordinal + 1
            && t.ev.queuedBytes == s.ev.queuedBytes + 1
            && Admit(env, s, 0, [b], policy).1 == Queued
  {
    var ing := Ingress(0, s.ordinal, policy);
    var s2 := Observed(Counted(s, 1), policy);
    ThrottledPipeline(env, ing, s2, b);
    assert Service(1, 1) == NANOS;
    var w := Pipeline(env, ing, s2, [b]);
    var s3 := s2.(ev := w.ev, buckets := w.buckets);
    assert w.items[0].delay == u + NANOS;
    EnqueueOne(env.limits, ing, s3, w.items[0]);
  }

  lemma {:induction false} EnqueueOne(l: Limits, ing: Ingress, s: State, it: Item)
    requires Fits(l, s, |it.payload|)
    ensures EnqueueAll(l, ing, s, [it]) == Enqueued(s, CandidateOf(ing, it)) && AnyFits(l, ing, s, [it])
  {
    assert [it][1..] == [];
    assert EnqueueAll(l, ing, s, [it]) == EnqueueAll(l, ing, EnqueueOrDrop(l, ing, s, it), [it][1..]);
  }

  /** The first byte finds the bucket full and leaves at once. */
  lemma {:induction false} ThrottledFirst(env: Env, b: Byte, policy: Policy)
    requires policy.plan == THROTTLE
    ensures var (t, a) := Admit(env, START, 0, [b], policy);
            && t.queue == [] && BucketOf(t.buckets, "throttle") == Some(Bucket(0, 0)) && t.ordinal == 1
            && t.bucketsGeneration == policy.generation && t.ev.queuedBytes == 0
            && Handed(a) == [Scheduled([b], 0, 0, policy.generation)]
  {
    var ing := Ingress(0, 0, policy);
    var s2 := Observed(Counted(START, 1), policy);
    assert BucketOf(s2.buckets, "throttle") == None;
    ThrottledPipeline(env, ing, s2, b);
    var it := Item(0, [b], 0);
    assert [it][1..] == [];
    assert ItemBytes([it]) == 1 + ItemBytes([it][1..]);
    var w := Pipeline(env, ing, s2, [b]);
    var s3 := s2.(ev := w.ev, buckets := w.buckets);
    assert EmitAll(s3, [it]) == EmitAll(EmittedNow(s3, 1), [it][1..]);
    assert SortedItems(ing, [], [it]) == SortedItems(ing, [AsScheduled(CandidateOf(ing, it))], [it][1..]);
  }

  /** Bytes between two moments of leaving are not bounded by them: of three one-byte datagrams that arrive
      together, the second and third are due one and two seconds later; a drain after five seconds hands
      out both at once, two bytes where the burst is one. */
  lemma {:induction false} LateDrainBunches(env: Env, b: Byte, policy: Policy)
    requires policy.plan == THROTTLE && env.limits.maxDatagrams >= 2 && env.limits.maxBytes >= 2
    ensures var (arrive, g) := (Receive(0, [b], policy), policy.generation);
            Emissions(env, Trace(START, []), [arrive] + ([arrive] + ([arrive] + ([Drain(5 * NANOS)] + []))))
              == [Sent(0, Scheduled([b], 0, 0, g)), Sent(5 * NANOS, Scheduled([b], 1, 0, g)),
                  Sent(5 * NANOS, Scheduled([b], 2, 0, g))]
  {
    var (arrive, drain) := (Receive(0, [b], policy), Drain(5 * NANOS));
    var t1, t2, t3 := ThreeArrivals(env, b, policy);
    EmissionsCons(env, Trace(START, []), arrive, [arrive] + ([arrive] + ([drain] + [])));
    EmissionsCons(env, t1, arrive, [arrive] + ([drain] + []));
    EmissionsCons(env, t2, arrive, [drain] + []);
    EmissionsCons(env, t3, drain, []);
    assert Emissions(env, t2, [arrive] + ([drain] + [])) == Emissions(env, t3, [drain] + []);
    assert Emissions(env, t1, [arrive] + ([arrive] + ([drain] + []))) == Emissions(env, t2, [arrive] + ([drain] + []));
  }

  lemma {:induction false} ThreeArrivals(env: Env, b: Byte, policy: Policy) returns (t1: Trace, t2: Trace, t3: Trace)
    requires policy.plan == THROTTLE && env.limits.maxDatagrams >= 2 && env.limits.maxBytes >= 2
    ensures var (arrive, g) := (Receive(0, [b], policy), policy.generation);
            && t1 == Exec(env, Trace(START, []), arrive) && t2 == Exec(env, t1, arrive) && t3 == Exec(env, t2, arrive)
            && HandedBy(env, Trace(START, []), arrive) == [Scheduled([b], 0, 0, g)]
            && HandedBy(env, t1, arrive) == [] && HandedBy(env, t2, arrive) == []
            && HandedBy(env, t3, Drain(5 * NANOS)) == [Scheduled([b], 1, 0, g), Scheduled([b], 2, 0, g)]
  {
    var arrive := Receive(0, [b], policy);
    ThrottledFirst(env, b, policy);
    t1 := Exec(env, Trace(START, []), arrive);
    ThrottledQueues(env, t1.s, b, policy, 0);
    t2 := Exec(env, t1, arrive);
    var second := Candidate(NANOS, 1, 0, [b], policy.generation);
    assert t2.s.queue == [second];
    ThrottledQueues(env, t2.s, b, policy, NANOS);
    t3 := Exec(env, t2, arrive);
    var third := Candidate(2 * NANOS, 2, 0, [b], policy.generation);
    assert [second][1..] == [] && [second] + [third] == [second, third];
    assert t3.s.queue == [second, third];
    BothDue(t3.s, second, third, 5 * NANOS);
  }

  lemma {:induction false} BothDue(s: State, x: Candidate, y: Candidate, now: nat)
    requires s.queue == [x, y] && x.at <= now && y.at <= now
    ensures Ready(s, now).1 == [AsScheduled(x), AsScheduled(y)]
  {
    var (t, u) := (Popped(s), Popped(Popped(s)));
    assert t.queue == [y] && u.queue == [];
    assert Ready(u, now) == (u, []);
    assert Ready(t, now) == (u, [AsScheduled(y)] + []);
    assert Ready(s, now).1 == [AsScheduled(x)] + [AsScheduled(y)];
  }

  lemma {:induction false} EmissionsCons(env: Env, t: Trace, op: Op, rest: seq<Op>)
    ensures Emissions(env, t, [op] + rest)
         == Stamp(op.now, HandedBy(env, t, op)) + Emissions(env, Exec(env, t, op), rest)
  {
    assert ([op] + rest)[1..] == rest;
  }
}
