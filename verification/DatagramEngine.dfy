/** The datagram direction engine itself: its fields, updated in place by admission and draining.
    Every method is tied to the function in `Datagram` that says what it computes. */
module DatagramEngine {
  import opened Common
  import opened Corruption
  import opened DatagramBucket
  import opened DatagramPlan
  import Spec = Datagram
  import opened Datagram
  import opened DatagramProofs
  import opened DatagramRefinement

  class DatagramDirectionEngine {
    const env: Env
    var ordinal: nat
    var queue: seq<Candidate>
    var evidence: Evidence
    var high: HighWater
    var buckets: map<string, Bucket>
    var bucketsGeneration: nat

    ghost function Value(): State
      reads this
    {
      State(ordinal, queue, evidence, high, buckets, bucketsGeneration)
    }

    constructor (env: Env)
      requires ValidLimits(env.limits)
      ensures this.env == env && Value() == START
    {
      this.env := env;
      ordinal, queue, buckets, bucketsGeneration := 0, [], map[], 0;
      evidence := Evidence(0, 0, 0, 0, 0, 0, 0, 0, 0, 0, 0, 0, 0, 0, 0, 0);
      high := HighWater(0, 0);
    }

    method Enqueue(c: Candidate)
      modifies this`queue, this`evidence, this`high
      ensures Value() == Enqueued(old(Value()), c)
    {
      evidence := evidence.(queued := evidence.queued + 1);
      evidence := evidence.(queuedBytes := evidence.queuedBytes + |c.payload|);
      high := high.(datagrams := Max(high.datagrams, evidence.queued));
      high := high.(bytes := Max(high.bytes, evidence.queuedBytes));
      queue := Insert(queue, c);
    }

    method EmitImmediate(ordinal: nat, payload: seq<Byte>, generation: nat, copy: nat) returns (out: Scheduled)
      modifies this`evidence, this`high
      ensures Value() == EmittedNow(old(Value()), |payload|)
      ensures out == Scheduled(payload, ordinal, copy, generation)
    {
      var size := |payload|;
      evidence := evidence.(queued := evidence.queued + 1);
      evidence := evidence.(queuedBytes := evidence.queuedBytes + size);
      high := high.(datagrams := Max(high.datagrams, evidence.queued));
      high := high.(bytes := Max(high.bytes, evidence.queuedBytes));
      evidence := evidence.(queued := Minus(evidence.queued, 1));
      evidence := evidence.(queuedBytes := Minus(evidence.queuedBytes, size));
      evidence := evidence.(emitted := evidence.emitted + 1);
      evidence := evidence.(emittedBytes := evidence.emittedBytes + size);
      out := Scheduled(payload, ordinal, copy, generation);
    }

    method BandwidthDelay(id: string, now: nat, bytes: nat, rate: pos, burst: pos) returns (delay: nat)
      modifies this`buckets
      ensures var r := Charge(BucketOf(old(buckets), id), now, bytes, rate, burst);
              buckets == old(buckets)[id := r.0] && delay == r.1
    {
      var bucket := if id in buckets then buckets[id] else Bucket(burst, now);
      var virtualNow := Max(now, bucket.updated);
      var elapsed := virtualNow - bucket.updated;
      var refill := FloorDiv(elapsed * rate, NANOS);
      bucket := bucket.(tokens := Min(bucket.tokens + Min(refill, U64_MAX), burst));
      bucket := bucket.(updated := virtualNow);
      if bucket.tokens >= bytes {
        bucket := bucket.(tokens := bucket.tokens - bytes);
        delay := virtualNow - now;
      } else {
        var service := Service(bytes - bucket.tokens, rate);
        bucket := Bucket(0, virtualNow + service);
        delay := virtualNow - now + service;
      }
      buckets := buckets[id := bucket];
    }

    /** One stage applied to one candidate, appending its results to `next`. */
    method ApplyStage(ing: Ingress, stage: nat, f: Fault, it: Item, next: seq<Item>, nextCopy: u16)
      returns (items: seq<Item>, copies: u16)
      modifies this`evidence, this`buckets
      ensures Work(items, copies, evidence, buckets)
           == ApplyFault(env, ing, stage, f, it, Work(next, nextCopy, old(evidence), old(buckets)))
    {
      items, copies := next, nextCopy;
      var (hit, rng) := StageRng(env, ing, stage, f.id, it.copy).Bernoulli(f.probability);
      if !hit {
        items := items + [it];
        return;
      }
      match f.kind {
        case Loss =>
          evidence := evidence.(loss := evidence.loss + 1);
        case Duplicate(n) =>
          items := items + [it];
          var k := 0;
          while k < n
            invariant 0 <= k <= n
            invariant copies == Copy16(nextCopy + k)
            invariant items == next + [it] + Copies(it, nextCopy, n)[..k]
            invariant evidence == old(evidence).(duplicated := old(evidence).duplicated + k)
            invariant buckets == old(buckets)
          {
            items := items + [it.(copy := copies)];
            copies := Copy16(copies + 1);
            evidence := evidence.(duplicated := evidence.duplicated + 1);
            k := k + 1;
          }
        case PayloadCorrupt(n) =>
          var bytes := it.payload;
          if bytes != [] {
            bytes, rng := CorruptPayload(bytes, n, rng);
            evidence := evidence.(corrupted := evidence.corrupted + 1);
          }
          items := items + [it.(payload := bytes)];
        case Bandwidth(rate, burst) =>
          var added := BandwidthDelay(f.id, ing.now, |it.payload|, rate, burst);
          evidence := evidence.(bandwidthNanos := evidence.bandwidthNanos + added);
          items := items + [it.(delay := it.delay + added)];
        case Delay(delay, jitter) =>
          var added := Jittered(delay, jitter, rng);
          evidence := evidence.(injectedNanos := evidence.injectedNanos + added);
          items := items + [it.(delay := it.delay + added)];
        case Reorder(hold) =>
          evidence := evidence.(injectedNanos := evidence.injectedNanos + hold);
          items := items + [it.(delay := it.delay + hold)];
          evidence := evidence.(reordered := evidence.reordered + 1);
      }
    }

    /** The stages in plan order, each over the candidates the previous one left. */
    method RunStages(ing: Ingress, payload: seq<Byte>) returns (candidates: seq<Item>)
      modifies this`evidence, this`buckets
      ensures var w := Pipeline(env, ing, old(Value()), payload);
              candidates == w.items && evidence == w.ev && buckets == w.buckets
    {
      candidates := [Item(0, payload, 0)];
      var nextCopy: u16 := 1;
      var stage := 0;
      while stage < |ing.policy.plan|
        invariant 0 <= stage <= |ing.policy.plan|
        invariant Stages(env, ing, stage, Work(candidates, nextCopy, evidence, buckets))
               == Pipeline(env, ing, old(Value()), payload)
      {
        var next: seq<Item> := [];
        var i := 0;
        ghost var w := Work(next, nextCopy, evidence, buckets);
        while i < |candidates|
          invariant 0 <= i <= |candidates|
          invariant Stage(env, ing, stage, candidates[i..], Work(next, nextCopy, evidence, buckets))
                 == Stage(env, ing, stage, candidates, w)
        {
          assert candidates[i..][1..] == candidates[i + 1..];
          next, nextCopy := ApplyStage(ing, stage, ing.policy.plan[stage], candidates[i], next, nextCopy);
          i := i + 1;
        }
        candidates := next;
        stage := stage + 1;
      }
    }

    method EmitCandidates(ing: Ingress, candidates: seq<Item>) returns (out: seq<Scheduled>)
      modifies this`evidence, this`high
      ensures Value() == EmitAll(old(Value()), candidates)
      ensures out == SortedItems(ing, [], candidates)
    {
      out := [];
      var i := 0;
      while i < |candidates|
        invariant 0 <= i <= |candidates|
        invariant EmitAll(Value(), candidates[i..]) == EmitAll(old(Value()), candidates)
        invariant SortedItems(ing, out, candidates[i..]) == SortedItems(ing, [], candidates)
      {
        assert candidates[i..][1..] == candidates[i + 1..];
        var it := candidates[i];
        var x := EmitImmediate(ing.ordinal, it.payload, ing.policy.generation, it.copy);
        out := InsertScheduled(out, x);
        i := i + 1;
      }
    }

    method EnqueueCandidates(ing: Ingress, candidates: seq<Item>) returns (queuedAny: bool)
      modifies this`queue, this`evidence, this`high
      ensures Value() == EnqueueAll(env.limits, ing, old(Value()), candidates)
      ensures queuedAny == AnyFits(env.limits, ing, old(Value()), candidates)
    {
      queuedAny := false;
      var i := 0;
      while i < |candidates|
        invariant 0 <= i <= |candidates|
        invariant EnqueueAll(env.limits, ing, Value(), candidates[i..])
               == EnqueueAll(env.limits, ing, old(Value()), candidates)
        invariant (queuedAny || AnyFits(env.limits, ing, Value(), candidates[i..]))
               == AnyFits(env.limits, ing, old(Value()), candidates)
      {
        assert candidates[i..][1..] == candidates[i + 1..];
        var it := candidates[i];
        if |queue| >= env.limits.maxDatagrams || evidence.queuedBytes + |it.payload| > env.limits.maxBytes {
          evidence := evidence.(overflow := evidence.overflow + 1);
        } else {
          Enqueue(Candidate(ing.now + it.delay, ing.ordinal, it.copy, it.payload, ing.policy.generation));
          queuedAny := true;
        }
        i := i + 1;
      }
    }

    method Observe(policy: Policy)
      modifies this`evidence, this`buckets, this`bucketsGeneration
      ensures Value() == Observed(old(Value()), policy)
    {
      evidence := evidence.(lastGeneration := policy.generation, lastNamespace := policy.seedNamespace);
      if policy.generation != bucketsGeneration {
        if |buckets| != 0 {
          buckets := map id | id in buckets && (exists f :: f in policy.plan && f.id == id) :: buckets[id];
        }
        bucketsGeneration := policy.generation;
      }
    }

    method Admit(now: nat, payload: seq<Byte>, policy: Policy) returns (a: Admission)
      modifies this
      ensures (Value(), a) == Spec.Admit(env, old(Value()), now, payload, policy)
    {
      var ing := Ingress(now, ordinal, policy);
      ordinal := ordinal + 1;
      evidence := evidence.(admitted := evidence.admitted + 1, admittedBytes := evidence.admittedBytes + |payload|);
      if |payload| > env.limits.maxDatagramBytes {
        evidence := evidence.(oversize := evidence.oversize + 1);
        return Consumed;
      }
      Observe(policy);
      if policy.plan == [] {
        a := AdmitUnfaulted(ing, payload);
      } else {
        a := AdmitStaged(ing, payload);
      }
    }

    method AdmitUnfaulted(ing: Ingress, payload: seq<Byte>) returns (a: Admission)
      modifies this`queue, this`evidence, this`high
      ensures var s, c := old(Value()), CandidateOf(ing, Item(0, payload, 0));
              (Value(), a) ==
              if s.queue == [] && Fits(env.limits, s, |payload|) then
                (EmittedNow(s, |payload|), Immediate([AsScheduled(c)]))
              else if Fits(env.limits, s, |payload|) then (Enqueued(s, c), Queued)
              else (s.(ev := s.ev.(overflow := s.ev.overflow + 1)), Consumed)
    {
      var fits := |queue| < env.limits.maxDatagrams && evidence.queuedBytes + |payload| <= env.limits.maxBytes;
      if |queue| == 0 && fits {
        var x := EmitImmediate(ing.ordinal, payload, ing.policy.generation, 0);
        return Immediate([x]);
      }
      if fits {
        Enqueue(Candidate(ing.now, ing.ordinal, 0, payload, ing.policy.generation));
        return Queued;
      }
      evidence := evidence.(overflow := evidence.overflow + 1);
      return Consumed;
    }

    method AdmitStaged(ing: Ingress, payload: seq<Byte>) returns (a: Admission)
      modifies this`queue, this`evidence, this`high, this`buckets
      ensures var s := old(Value()); var w := Pipeline(env, ing, s, payload);
              var s3 := s.(ev := w.ev, buckets := w.buckets);
              (Value(), a) ==
              if w.items != [] && AllUndelayed(w.items) && s3.queue == [] &&
                FitsAll(env.limits, s3, |w.items|, ItemBytes(w.items))
              then (EmitAll(s3, w.items), Immediate(SortedItems(ing, [], w.items)))
              else (EnqueueAll(env.limits, ing, s3, w.items), if AnyFits(env.limits, ing, s3, w.items) then Queued
                    else Consumed)
    {
      var candidates := RunStages(ing, payload);
      if candidates != [] && AllUndelayed(candidates) && |queue| == 0
         && |queue| + |candidates| <= env.limits.maxDatagrams
         && evidence.queuedBytes + ItemBytes(candidates) <= env.limits.maxBytes {
        var out := EmitCandidates(ing, candidates);
        return Immediate(out);
      }
      if candidates == [] {
        return Consumed;
      }
      var queuedAny := EnqueueCandidates(ing, candidates);
      a := if queuedAny then Queued else Consumed;
    }

    /** Take the head of the queue. */
    method Pop() returns (x: Scheduled)
      requires queue != []
      modifies this`queue, this`evidence
      ensures Value() == Popped(old(Value())) && x == AsScheduled(old(queue)[0])
    {
      var c := queue[0];
      queue := queue[1..];
      evidence := evidence.(queued := Minus(evidence.queued, 1));
      evidence := evidence.(queuedBytes := Minus(evidence.queuedBytes, |c.payload|));
      evidence := evidence.(emitted := evidence.emitted + 1);
      evidence := evidence.(emittedBytes := evidence.emittedBytes + |c.payload|);
      x := Scheduled(c.payload, c.ordinal, c.copy, c.generation);
    }

    /** Take everything due: exactly the candidates whose release has come, in scheduling order. */
    method TakeReady(now: nat) returns (out: seq<Scheduled>)
      modifies this`queue, this`evidence
      ensures (Value(), out) == Ready(old(Value()), now)
      ensures Ordered(old(queue)) ==>
                exists k: nat :: DuePrefix(old(queue), now, k) && queue == old(queue)[k..] &&
                  out == Emission(old(queue)[..k])
    {
      if Ordered(queue) {
        ghost var k := ReadyTakesDue(Value(), now);
      }
      out := [];
      while queue != [] && queue[0].at <= now
        invariant Ready(old(Value()), now).0 == Ready(Value(), now).0
        invariant Ready(old(Value()), now).1 == out + Ready(Value(), now).1
        decreases |queue|
      {
        var x := Pop();
        out := out + [x];
      }
      assert out + [] == out;
    }
  }

  /** One turn of the embedding loop. */
  method ServeTurn(engine: DatagramDirectionEngine, turn: Turn) returns (out: seq<Scheduled>)
    modifies engine
    ensures forall sent: seq<Scheduled> ::
              Serve(engine.env, Trace(old(engine.Value()), sent), turn) == Trace(engine.Value(), sent + out)
  {
    match turn {
      case Arrive(x, drain) =>
        var a := engine.Admit(x.now, x.payload, x.policy);
        var due := engine.TakeReady(drain);
        out := (if a.Immediate? then a.items else []) + due;
        assert forall sent: seq<Scheduled> :: (sent + Handed(a)) + due == sent + out;
      case Timer(now) =>
        out := engine.TakeReady(now);
    }
  }

  /** The embedding loop around a fresh engine: admit each arrival and send what is immediate; then, at a
      fresh reading of the clock, and whenever a timer fires, send what is due. What reaches the transport
      is what always enqueueing would have sent. */
  method ServeStream(env: Env, turns: seq<Turn>) returns (sent: seq<Scheduled>)
    requires ValidLimits(env.limits) && ValidTurns(turns)
    ensures sent == ServeAllByQueue(env, Trace(START, []), turns).log
  {
    var engine := new DatagramDirectionEngine(env);
    sent := [];
    for i := 0 to |turns|
      invariant engine.env == env
      invariant ServeAll(env, Trace(engine.Value(), sent), turns[i..]) == ServeAll(env, Trace(START, []), turns)
    {
      assert turns[i..][1..] == turns[i + 1..];
      var out := ServeTurn(engine, turns[i]);
      sent := sent + out;
    }
    ImmediateRefinesQueue(env, Trace(START, []), Trace(START, []), turns);
  }
}
