/** What the datagram direction engine computes, as functions on values: admission through the
    fault stages, the deadline-ordered queue, immediate emission and draining (datagram.rs). */
module Datagram {
  import opened Common
  import opened Corruption
  import opened DatagramBucket
  import opened DatagramPlan

  const COPY_MAX: nat := 65_535
  type u16 = n: nat | n <= COPY_MAX

  datatype Limits = Limits(maxDatagrams: pos, maxBytes: pos, maxDatagramBytes: pos)

  predicate ValidLimits(l: Limits) {
    l.maxDatagrams <= 1_000_000 && l.maxBytes <= 1_073_741_824 && l.maxDatagramBytes <= MAX_DATAGRAM
  }

  /** Everything the per-candidate seed is derived from; the derivation itself is a parameter. */
  datatype SeedKey = SeedKey(namespace: nat, copy: nat, ordinal: nat, stage: nat, id: string)

  datatype Env = Env(limits: Limits, seedOf: SeedKey -> nat, step: nat -> (nat, nat))

  datatype Policy = Policy(generation: nat, plan: seq<Fault>, seedNamespace: nat)

  datatype Candidate = Candidate(at: nat, ordinal: nat, copy: nat, payload: seq<Byte>, generation: nat)

  datatype Scheduled = Scheduled(payload: seq<Byte>, ordinal: nat, copy: nat, generation: nat)

  datatype Admission = Consumed | Immediate(items: seq<Scheduled>) | Queued

  datatype Evidence = Evidence(
    admitted: nat, admittedBytes: nat, emitted: nat, emittedBytes: nat,
    loss: nat, overflow: nat, oversize: nat, duplicated: nat, corrupted: nat, reordered: nat,
    queued: nat, queuedBytes: nat, injectedNanos: nat, bandwidthNanos: nat,
    lastGeneration: nat, lastNamespace: nat)

  datatype HighWater = HighWater(datagrams: nat, bytes: nat)

  /** `queue` holds the pending candidates in scheduling order, so its head is the heap's minimum. */
  datatype State = State(
    ordinal: nat, queue: seq<Candidate>, ev: Evidence, high: HighWater,
    buckets: map<string, Bucket>, bucketsGeneration: nat)

  const START: State :=
    State(0, [], Evidence(0, 0, 0, 0, 0, 0, 0, 0, 0, 0, 0, 0, 0, 0, 0, 0), HighWater(0, 0), map[], 0)

  // --- Scheduling order ---

  /** The total order `(release, ordinal, copy)`. */
  predicate Before(a: Candidate, b: Candidate) {
    a.at < b.at || (a.at == b.at && (a.ordinal < b.ordinal || (a.ordinal == b.ordinal && a.copy < b.copy)))
  }

  function Insert(q: seq<Candidate>, c: Candidate): (r: seq<Candidate>)
    ensures |r| == |q| + 1
  {
    if q == [] || Before(c, q[0]) then [c] + q else [q[0]] + Insert(q[1..], c)
  }

  function AsScheduled(c: Candidate): Scheduled {
    Scheduled(c.payload, c.ordinal, c.copy, c.generation)
  }

  function PayloadBytes(q: seq<Candidate>): nat {
    if q == [] then 0 else |q[0].payload| + PayloadBytes(q[1..])
  }

  // --- The fault stages of one admission ---

  /** One candidate moving through the stages: identity, bytes, accumulated release delay. */
  datatype Item = Item(copy: nat, payload: seq<Byte>, delay: nat)

  datatype Ingress = Ingress(now: nat, ordinal: nat, policy: Policy)

  datatype Work = Work(items: seq<Item>, nextCopy: u16, ev: Evidence, buckets: map<string, Bucket>) {
    function Push(it: Item): Work { this.(items := items + [it]) }
  }

  /** The 16-bit copy counter saturates. */
  function Copy16(n: nat): u16 { Min(n, COPY_MAX) }

  function Copies(it: Item, first: nat, n: nat): (r: seq<Item>)
    ensures |r| == n
  {
    seq(n, k requires 0 <= k < n => it.(copy := Copy16(first + k)))
  }

  /** Symmetric jitter around `delay`, clipped to a 64-bit nanosecond count. */
  function Jittered(delay: nat, jitter: nat, rng: Rng): nat {
    if jitter == 0 then delay
    else
      var range := Min(jitter, U64_MAX);
      var total := delay + rng.Below(PlusU64(Min(2 * range, U64_MAX), 1)).0 - range;
      Max(0, Min(total, U64_MAX))
  }

  function StageRng(env: Env, ing: Ingress, stage: nat, id: string, copy: nat): Rng {
    Rng(env.step, env.seedOf(SeedKey(ing.policy.seedNamespace, copy, ing.ordinal, stage, id)))
  }

  function BucketOf(buckets: map<string, Bucket>, id: string): Option<Bucket> {
    if id in buckets then Some(buckets[id]) else None
  }

  /** One stage applied to one candidate; the results are appended to `w.items`. */
  function ApplyFault(env: Env, ing: Ingress, stage: nat, f: Fault, it: Item, w: Work): Work {
    var (hit, rng) := StageRng(env, ing, stage, f.id, it.copy).Bernoulli(f.probability);
    if !hit then w.Push(it)
    else
      match f.kind
      case Loss => w.(ev := w.ev.(loss := w.ev.loss + 1))
      case Duplicate(n) =>
        w.(items := w.items + [it] + Copies(it, w.nextCopy, n), nextCopy := Copy16(w.nextCopy + n),
           ev := w.ev.(duplicated := w.ev.duplicated + n))
      case PayloadCorrupt(n) =>
        if it.payload == [] then w.Push(it)
        else
          var bytes := Corrupt(it.payload, 0, Min(n, |it.payload|), rng).0;
          w.(ev := w.ev.(corrupted := w.ev.corrupted + 1)).Push(it.(payload := bytes))
      case Bandwidth(rate, burst) =>
        var (b, added) := Charge(BucketOf(w.buckets, f.id), ing.now, |it.payload|, rate, burst);
        w.(buckets := w.buckets[f.id := b], ev := w.ev.(bandwidthNanos := w.ev.bandwidthNanos + added))
         .Push(it.(delay := it.delay + added))
      case Delay(delay, jitter) =>
        var added := Jittered(delay, jitter, rng);
        w.(ev := w.ev.(injectedNanos := w.ev.injectedNanos + added)).Push(it.(delay := it.delay + added))
      case Reorder(hold) =>
        w.(ev := w.ev.(injectedNanos := w.ev.injectedNanos + hold, reordered := w.ev.reordered + 1))
         .Push(it.(delay := it.delay + hold))
  }

  /** The rest of stage `stage` over the candidates still to visit. */
  function Stage(env: Env, ing: Ingress, stage: nat, rest: seq<Item>, w: Work): Work
    requires stage < |ing.policy.plan|
    decreases |rest|
  {
    if rest == [] then w
    else Stage(env, ing, stage, rest[1..], ApplyFault(env, ing, stage, ing.policy.plan[stage], rest[0], w))
  }

  /** Stages k, k+1, ... */
  function Stages(env: Env, ing: Ingress, k: nat, w: Work): Work
    requires k <= |ing.policy.plan|
    decreases |ing.policy.plan| - k
  {
    if k == |ing.policy.plan| then w
    else Stages(env, ing, k + 1, Stage(env, ing, k, w.items, w.(items := [])))
  }

  function Pipeline(env: Env, ing: Ingress, s: State, payload: seq<Byte>): Work {
    Stages(env, ing, 0, Work([Item(0, payload, 0)], 1, s.ev, s.buckets))
  }

  // --- The bounded queue ---

  predicate Fits(l: Limits, s: State, bytes: nat) {
    |s.queue| < l.maxDatagrams && s.ev.queuedBytes + bytes <= l.maxBytes
  }

  predicate FitsAll(l: Limits, s: State, datagrams: nat, bytes: nat) {
    |s.queue| + datagrams <= l.maxDatagrams && s.ev.queuedBytes + bytes <= l.maxBytes
  }

  function Raise(h: HighWater, ev: Evidence): HighWater {
    HighWater(Max(h.datagrams, ev.queued), Max(h.bytes, ev.queuedBytes))
  }

  function Enqueued(s: State, c: Candidate): State {
    var ev := s.ev.(queued := s.ev.queued + 1, queuedBytes := s.ev.queuedBytes + |c.payload|);
    s.(ev := ev, high := Raise(s.high, ev), queue := Insert(s.queue, c))
  }

  function CandidateOf(ing: Ingress, it: Item): Candidate {
    Candidate(ing.now + it.delay, ing.ordinal, it.copy, it.payload, ing.policy.generation)
  }

  function EnqueueOrDrop(l: Limits, ing: Ingress, s: State, it: Item): State {
    if Fits(l, s, |it.payload|) then Enqueued(s, CandidateOf(ing, it))
    else s.(ev := s.ev.(overflow := s.ev.overflow + 1))
  }

  function EnqueueAll(l: Limits, ing: Ingress, s: State, items: seq<Item>): State
    decreases |items|
  {
    if items == [] then s
    else EnqueueAll(l, ing, EnqueueOrDrop(l, ing, s, items[0]), items[1..])
  }

  /** Whether EnqueueAll keeps at least one of the items. */
  predicate AnyFits(l: Limits, ing: Ingress, s: State, items: seq<Item>)
    decreases |items|
  {
    items != [] &&
    (Fits(l, s, |items[0].payload|) || AnyFits(l, ing, EnqueueOrDrop(l, ing, s, items[0]), items[1..]))
  }

  /** Account one candidate as if queued and drained at once. */
  function EmittedNow(s: State, bytes: nat): State {
    var ev := s.ev.(queued := s.ev.queued + 1, queuedBytes := s.ev.queuedBytes + bytes);
    s.(high := Raise(s.high, ev), ev := s.ev.(emitted := s.ev.emitted + 1, emittedBytes := s.ev.emittedBytes + bytes))
  }

  function EmitAll(s: State, items: seq<Item>): State
    decreases |items|
  {
    if items == [] then s else EmitAll(EmittedNow(s, |items[0].payload|), items[1..])
  }

  function InsertScheduled(out: seq<Scheduled>, x: Scheduled): seq<Scheduled> {
    if out == [] || x.copy < out[0].copy then [x] + out else [out[0]] + InsertScheduled(out[1..], x)
  }

  /** The immediate items sorted by copy (they share one ordinal). */
  function SortedItems(ing: Ingress, out: seq<Scheduled>, items: seq<Item>): seq<Scheduled>
    decreases |items|
  {
    if items == [] then out
    else SortedItems(ing, InsertScheduled(out, AsScheduled(CandidateOf(ing, items[0]))), items[1..])
  }

  /** The state left by taking the head of the queue. */
  function Popped(s: State): State
    requires s.queue != []
  {
    var bytes := |s.queue[0].payload|;
    s.(queue := s.queue[1..],
       ev := s.ev.(queued := Minus(s.ev.queued, 1), queuedBytes := Minus(s.ev.queuedBytes, bytes),
                   emitted := s.ev.emitted + 1, emittedBytes := s.ev.emittedBytes + bytes))
  }

  /** Take the head of the queue while it is due. */
  function Ready(s: State, now: nat): (r: (State, seq<Scheduled>))
    decreases |s.queue|
  {
    if s.queue == [] || s.queue[0].at > now then (s, [])
    else
      var (t, out) := Ready(Popped(s), now);
      (t, [AsScheduled(s.queue[0])] + out)
  }

  /** What the transport receives of a list of candidates. */
  function Emission(q: seq<Candidate>): seq<Scheduled> {
    if q == [] then [] else [AsScheduled(q[0])] + Emission(q[1..])
  }

  // --- Admission ---

  function Counted(s: State, bytes: nat): State {
    s.(ordinal := s.ordinal + 1,
       ev := s.ev.(admitted := s.ev.admitted + 1, admittedBytes := s.ev.admittedBytes + bytes))
  }

  function Oversize(s: State): State { s.(ev := s.ev.(oversize := s.ev.oversize + 1)) }

  /** Adopt the policy snapshot: evidence, and buckets of vanished faults forgotten. */
  function Observed(s: State, policy: Policy): State {
    var kept := map id | id in s.buckets && (exists f :: f in policy.plan && f.id == id) :: s.buckets[id];
    s.(ev := s.ev.(lastGeneration := policy.generation, lastNamespace := policy.seedNamespace),
       buckets := if policy.generation != s.bucketsGeneration then kept else s.buckets,
       bucketsGeneration := policy.generation)
  }

  function ItemBytes(items: seq<Item>): nat {
    if items == [] then 0 else |items[0].payload| + ItemBytes(items[1..])
  }

  predicate AllUndelayed(items: seq<Item>) {
    forall i :: 0 <= i < |items| ==> items[i].delay == 0
  }

  /** Admission of one datagram, with both immediate paths. */
  function Admit(env: Env, s: State, now: nat, payload: seq<Byte>, policy: Policy): (State, Admission) {
    var ing := Ingress(now, s.ordinal, policy);
    var s1 := Counted(s, |payload|);
    if |payload| > env.limits.maxDatagramBytes then (Oversize(s1), Consumed)
    else
      var s2 := Observed(s1, policy);
      if policy.plan == [] then
        var it := Item(0, payload, 0);
        if s2.queue == [] && Fits(env.limits, s2, |payload|) then
          (EmittedNow(s2, |payload|), Immediate([AsScheduled(CandidateOf(ing, it))]))
        else if Fits(env.limits, s2, |payload|) then (Enqueued(s2, CandidateOf(ing, it)), Queued)
        else (s2.(ev := s2.ev.(overflow := s2.ev.overflow + 1)), Consumed)
      else
        var w := Pipeline(env, ing, s2, payload);
        var s3 := s2.(ev := w.ev, buckets := w.buckets);
        if w.items != [] && AllUndelayed(w.items) && s3.queue == []
           && FitsAll(env.limits, s3, |w.items|, ItemBytes(w.items)) then
          (EmitAll(s3, w.items), Immediate(SortedItems(ing, [], w.items)))
        else
          (EnqueueAll(env.limits, ing, s3, w.items),
           if AnyFits(env.limits, ing, s3, w.items) then Queued else Consumed)
  }

  /** The reference: every surviving candidate goes through the queue. */
  function AdmitByQueue(env: Env, s: State, now: nat, payload: seq<Byte>, policy: Policy): State {
    var ing := Ingress(now, s.ordinal, policy);
    var s1 := Counted(s, |payload|);
    if |payload| > env.limits.maxDatagramBytes then Oversize(s1)
    else
      var s2 := Observed(s1, policy);
      var w := Pipeline(env, ing, s2, payload);
      EnqueueAll(env.limits, ing, s2.(ev := w.ev, buckets := w.buckets), w.items)
  }
}
