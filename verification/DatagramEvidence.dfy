/** The datagram counters against what actually happened: arrivals, and what was handed to the transport. */
module DatagramEvidence {
  import opened Common
  import opened Datagram
  import DatagramPlan
  import opened DatagramProofs

  function LogBytes(log: seq<Scheduled>): nat {
    if log == [] then 0 else |log[0].payload| + LogBytes(log[1..])
  }

  lemma {:induction false} LogBytesConcat(a: seq<Scheduled>, b: seq<Scheduled>)
    ensures LogBytes(a + b) == LogBytes(a) + LogBytes(b)
  {
    if a == [] {
      assert a + b == b;
    } else {
      assert (a + b)[1..] == a[1..] + b;
      LogBytesConcat(a[1..], b);
    }
  }

  // --- One operation ---

  /** The counters move on by these emissions, and by nothing else that is admitted or observed. */
  ghost predicate Emits(ev: Evidence, count: nat, bytes: nat, next: Evidence) {
    && next.emitted == ev.emitted + count && next.emittedBytes == ev.emittedBytes + bytes
    && next.admitted == ev.admitted && next.admittedBytes == ev.admittedBytes
    && next.lastGeneration == ev.lastGeneration && next.lastNamespace == ev.lastNamespace
  }

  lemma {:induction false} EmitCounts(s: State, items: seq<Item>)
    ensures Emits(s.ev, |items|, ItemBytes(items), EmitAll(s, items).ev)
    decreases |items|
  {
    if items != [] {
      EmitCounts(EmittedNow(s, |items[0].payload|), items[1..]);
    }
  }

  lemma {:induction false} EnqueueCounts(l: Limits, ing: Ingress, s: State, items: seq<Item>)
    ensures Emits(s.ev, 0, 0, EnqueueAll(l, ing, s, items).ev)
    decreases |items|
  {
    if items != [] {
      EnqueueCounts(l, ing, EnqueueOrDrop(l, ing, s, items[0]), items[1..]);
    }
  }

  lemma {:induction false} InsertBytesScheduled(out: seq<Scheduled>, x: Scheduled)
    ensures var r := InsertScheduled(out, x); |r| == |out| + 1 && LogBytes(r) == LogBytes(out) + |x.payload|
  {
    if out == [] || x.copy < out[0].copy {
      assert ([x] + out)[1..] == out;
    } else {
      InsertBytesScheduled(out[1..], x);
      assert ([out[0]] + InsertScheduled(out[1..], x))[1..] == InsertScheduled(out[1..], x);
    }
  }

  lemma {:induction false} SortedBytes(ing: Ingress, out: seq<Scheduled>, items: seq<Item>)
    ensures var r := SortedItems(ing, out, items);
            |r| == |out| + |items| && LogBytes(r) == LogBytes(out) + ItemBytes(items)
    decreases |items|
  {
    if items != [] {
      var x := AsScheduled(CandidateOf(ing, items[0]));
      InsertBytesScheduled(out, x);
      SortedBytes(ing, InsertScheduled(out, x), items[1..]);
    }
  }

  lemma {:induction false} ReadyCounts(s: State, now: nat)
    ensures var (t, out) := Ready(s, now); Emits(s.ev, |out|, LogBytes(out), t.ev)
    decreases |s.queue|
  {
    if s.queue != [] && s.queue[0].at <= now {
      ReadyCounts(Popped(s), now);
      var out := Ready(Popped(s), now).1;
      assert ([AsScheduled(s.queue[0])] + out)[1..] == out;
    }
  }

  /** Admission counts the arrival and what it hands over, and notes the policy unless the datagram is
      too large. */
  lemma {:induction false} AdmitCounts(env: Env, s: State, now: nat, payload: seq<Byte>, policy: Policy)
    requires DatagramPlan.ValidPlan(policy.plan)
    ensures var (t, a) := Admit(env, s, now, payload, policy); var large := |payload| > env.limits.maxDatagramBytes;
            && t.ev.admitted == s.ev.admitted + 1 && t.ev.admittedBytes == s.ev.admittedBytes + |payload|
            && t.ev.emitted == s.ev.emitted + |Handed(a)|
            && t.ev.emittedBytes == s.ev.emittedBytes + LogBytes(Handed(a))
            && t.ev.lastGeneration == (if large then s.ev.lastGeneration else policy.generation)
            && t.ev.lastNamespace == (if large then s.ev.lastNamespace else policy.seedNamespace)
  {
    if |payload| <= env.limits.maxDatagramBytes {
      var ing := Ingress(now, s.ordinal, policy);
      var s2 := Observed(Counted(s, |payload|), policy);
      var w := Pipeline(env, ing, s2, payload);
      var s3 := s2.(ev := w.ev, buckets := w.buckets);
      BoundedDuplication(env, ing, s2, payload);
      AdmitShape(env, s, now, payload, policy);
      EmitCounts(s3, w.items);
      EnqueueCounts(env.limits, ing, s3, w.items);
      SortedBytes(ing, [], w.items);
    }
  }

  // --- Every run ---

  function Received(ops: seq<Op>): nat {
    if ops == [] then 0 else Received(ops[1..]) + if ops[0].Receive? then 1 else 0
  }

  function ReceivedBytes(ops: seq<Op>): nat {
    if ops == [] then 0 else ReceivedBytes(ops[1..]) + if ops[0].Receive? then |ops[0].payload| else 0
  }

  /** The counters of emission agree with the log. */
  ghost predicate Logged(t: Trace) {
    t.s.ev.emitted == |t.log| && t.s.ev.emittedBytes == LogBytes(t.log)
  }

  lemma {:induction false} ExecLogged(env: Env, t: Trace, op: Op)
    requires Logged(t) && (op.Receive? ==> DatagramPlan.ValidPlan(op.policy.plan))
    ensures var u := Exec(env, t, op);
            && Logged(u) && u.s.ev.admitted == t.s.ev.admitted + (if op.Receive? then 1 else 0)
            && u.s.ev.admittedBytes == t.s.ev.admittedBytes + (if op.Receive? then |op.payload| else 0)
  {
    match op {
      case Receive(now, payload, policy) =>
        AdmitCounts(env, t.s, now, payload, policy);
        LogBytesConcat(t.log, Handed(Admit(env, t.s, now, payload, policy).1));
      case Drain(now) =>
        ReadyCounts(t.s, now);
        LogBytesConcat(t.log, Ready(t.s, now).1);
    }
  }

  /** Over every run, the engine has counted as admitted exactly the datagrams and bytes that arrived, and as
      emitted exactly those handed to the transport. */
  lemma {:induction false} RunLogged(env: Env, t: Trace, ops: seq<Op>)
    requires Logged(t) && ValidOps(ops)
    ensures var u := Run(env, t, ops);
            && Logged(u) && u.s.ev.admitted == t.s.ev.admitted + Received(ops)
            && u.s.ev.admittedBytes == t.s.ev.admittedBytes + ReceivedBytes(ops)
    decreases |ops|
  {
    if ops != [] {
      ExecLogged(env, t, ops[0]);
      RunLogged(env, Exec(env, t, ops[0]), ops[1..]);
    }
  }
}
