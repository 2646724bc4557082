/** Invariants of the datagram engine over every run: conservation, hard bounds, scheduling order
    and unique identities. */
module DatagramProofs {
  import opened Common
  import opened DatagramPlan
  import opened Datagram

  datatype Key = Key(ordinal: nat, copy: nat)

  ghost predicate Unique<T(!new)>(m: multiset<T>) {
    forall k :: m[k] <= 1
  }

  // --- One admission: what the stages keep ---

  /** The stages touch only their own counters. */
  ghost predicate SameLedger(a: Evidence, b: Evidence) {
    && a.admitted == b.admitted && a.admittedBytes == b.admittedBytes
    && a.emitted == b.emitted && a.emittedBytes == b.emittedBytes
    && a.overflow == b.overflow && a.oversize == b.oversize
    && a.queued == b.queued && a.queuedBytes == b.queuedBytes
    && a.lastGeneration == b.lastGeneration && a.lastNamespace == b.lastNamespace
  }

  /** The identities of a list of candidates, with multiplicity. */
  ghost function ItemKeys(ordinal: nat, items: seq<Item>): multiset<Key> {
    if items == [] then multiset{} else multiset{Key(ordinal, items[0].copy)} + ItemKeys(ordinal, items[1..])
  }

  ghost predicate AllSized(items: seq<Item>, size: nat) {
    forall i :: 0 <= i < |items| ==> |items[i].payload| == size
  }

  /** In the middle of a stage, with `rest` still to visit: identities are distinct and already
      handed out, and every candidate is the original, a counted copy, or a counted loss. */
  ghost predicate StageInv(ordinal: nat, w: Work, rest: seq<Item>, base: Evidence, size: nat) {
    && Unique(ItemKeys(ordinal, w.items) + ItemKeys(ordinal, rest))
    && (forall k :: k in ItemKeys(ordinal, w.items) + ItemKeys(ordinal, rest) ==>
        k.ordinal == ordinal && k.copy < w.nextCopy)
    && AllSized(w.items, size) && AllSized(rest, size)
    && |w.items| + |rest| <= w.nextCopy
    && |w.items| + |rest| + w.ev.loss + base.duplicated == 1 + w.ev.duplicated + base.loss
    && SameLedger(w.ev, base)
  }

  lemma {:induction false} ItemKeysConcat(ordinal: nat, a: seq<Item>, b: seq<Item>)
    ensures ItemKeys(ordinal, a + b) == ItemKeys(ordinal, a) + ItemKeys(ordinal, b)
  {
    if a == [] {
      assert a + b == b;
    } else {
      assert (a + b)[1..] == a[1..] + b;
      ItemKeysConcat(ordinal, a[1..], b);
    }
  }

  lemma {:induction false} ItemKeysAppend(ordinal: nat, a: seq<Item>, x: Item)
    ensures ItemKeys(ordinal, a + [x]) == ItemKeys(ordinal, a) + multiset{Key(ordinal, x.copy)}
  {
    ItemKeysConcat(ordinal, a, [x]);
    assert ItemKeys(ordinal, [x]) == multiset{Key(ordinal, x.copy)} + ItemKeys(ordinal, [x][1..]);
  }

  /** Fresh copies take the next n numbers, once each. */
  lemma {:induction false} CopiesKeys(ordinal: nat, it: Item, first: nat, n: nat)
    requires first + n <= COPY_MAX + 1
    ensures Unique(ItemKeys(ordinal, Copies(it, first, n)))
    ensures forall k :: k in ItemKeys(ordinal, Copies(it, first, n)) ==>
            k.ordinal == ordinal && first <= k.copy < first + n
    decreases n
  {
    if n > 0 {
      var cs := Copies(it, first, n);
      CopiesKeys(ordinal, it, first + 1, n - 1);
      assert cs[1..] == Copies(it, first + 1, n - 1);
      assert cs[0] == it.(copy := Copy16(first + 0));
      assert ItemKeys(ordinal, cs) == multiset{Key(ordinal, cs[0].copy)} + ItemKeys(ordinal, cs[1..]);
    }
  }

  lemma {:induction false} UniqueSum(a: multiset<Key>, b: multiset<Key>)
    requires Unique(a) && Unique(b) && a !! b
    ensures Unique(a + b)
  {
    forall k: Key ensures (a + b)[k] <= 1 {
      assert a[k] <= 1 && b[k] <= 1;
      assert k !in a || k !in b;
    }
  }

  lemma {:induction false} DuplicateKeys(ordinal: nat, it: Item, rest: seq<Item>, items: seq<Item>, next: nat, n: nat)
    requires Unique(ItemKeys(ordinal, items) + ItemKeys(ordinal, [it] + rest))
    requires forall k :: k in ItemKeys(ordinal, items) + ItemKeys(ordinal, [it] + rest) ==>
             k.ordinal == ordinal && k.copy < next
    requires next + n <= COPY_MAX
    ensures var both := ItemKeys(ordinal, items + [it] + Copies(it, next, n)) + ItemKeys(ordinal, rest);
            Unique(both) && forall k :: k in both ==> k.ordinal == ordinal && k.copy < next + n
  {
    var cs := Copies(it, next, n);
    assert ([it] + rest)[0] == it && ([it] + rest)[1..] == rest;
    var before := ItemKeys(ordinal, items) + ItemKeys(ordinal, [it] + rest);
    CopiesKeys(ordinal, it, next, n);
    ItemKeysAppend(ordinal, items, it);
    ItemKeysConcat(ordinal, items + [it], cs);
    assert ItemKeys(ordinal, items + [it] + cs) + ItemKeys(ordinal, rest) == before + ItemKeys(ordinal, cs);
    UniqueSum(before, ItemKeys(ordinal, cs));
  }

  lemma {:induction false} DuplicateKeeps(ordinal: nat, it: Item, rest: seq<Item>, w: Work, n: nat, base: Evidence,
                                          size: nat)
    requires StageInv(ordinal, w, [it] + rest, base, size)
    requires w.nextCopy + n <= COPY_MAX
    ensures StageInv(ordinal,
                     w.(items := w.items + [it] + Copies(it, w.nextCopy, n), nextCopy := w.nextCopy + n,
                        ev := w.ev.(duplicated := w.ev.duplicated + n)),
                     rest, base, size)
  {
    DuplicateKeys(ordinal, it, rest, w.items, w.nextCopy, n);
    DuplicateSized(it, rest, w.items, w.nextCopy, n, size);
  }

  lemma {:induction false} DuplicateSized(it: Item, rest: seq<Item>, items: seq<Item>, next: nat, n: nat, size: nat)
    requires AllSized(items, size) && AllSized([it] + rest, size)
    ensures AllSized(items + [it] + Copies(it, next, n), size) && AllSized(rest, size)
  {
    assert ([it] + rest)[0] == it && ([it] + rest)[1..] == rest;
  }

  /** A stage that passes one candidate on, possibly changed but with its identity and size. */
  lemma {:induction false} PassKeeps(ordinal: nat, it: Item, rest: seq<Item>, w: Work, out: Item, v: Work,
                                     base: Evidence, size: nat)
    requires StageInv(ordinal, w, [it] + rest, base, size)
    requires v.items == w.items + [out] && v.nextCopy == w.nextCopy
    requires out.copy == it.copy && |out.payload| == |it.payload|
    requires SameLedger(v.ev, w.ev) && v.ev.loss == w.ev.loss && v.ev.duplicated == w.ev.duplicated
    ensures StageInv(ordinal, v, rest, base, size)
  {
    assert ([it] + rest)[0] == it && ([it] + rest)[1..] == rest;
    ItemKeysAppend(ordinal, w.items, out);
    assert ItemKeys(ordinal, v.items) + ItemKeys(ordinal, rest)
        == ItemKeys(ordinal, w.items) + ItemKeys(ordinal, [it] + rest);
  }

  lemma {:induction false} LossKeeps(ordinal: nat, it: Item, rest: seq<Item>, w: Work, base: Evidence, size: nat)
    requires StageInv(ordinal, w, [it] + rest, base, size)
    ensures StageInv(ordinal, w.(ev := w.ev.(loss := w.ev.loss + 1)), rest, base, size)
  {
    assert ([it] + rest)[0] == it && ([it] + rest)[1..] == rest;
    var both := ItemKeys(ordinal, w.items) + ItemKeys(ordinal, rest);
    var old' := ItemKeys(ordinal, w.items) + ItemKeys(ordinal, [it] + rest);
    assert old' == both + multiset{Key(ordinal, it.copy)};
    forall k: Key ensures both[k] <= 1 {
      assert old'[k] <= 1;
    }
    forall i | 0 <= i < |rest| ensures |rest[i].payload| == size {
      assert ([it] + rest)[i + 1] == rest[i];
    }
  }

  lemma {:induction false} ApplyFaultKeeps(env: Env, ing: Ingress, stage: nat, f: Fault, it: Item, rest: seq<Item>,
                                           w: Work,
                        base: Evidence, size: nat)
    requires StageInv(ing.ordinal, w, [it] + rest, base, size)
    requires w.nextCopy + Factor(f.kind) - 1 <= COPY_MAX
    ensures var v := ApplyFault(env, ing, stage, f, it, w);
            && StageInv(ing.ordinal, v, rest, base, size)
            && v.nextCopy <= w.nextCopy + Factor(f.kind) - 1
  {
    var v := ApplyFault(env, ing, stage, f, it, w);
    var (hit, rng) := StageRng(env, ing, stage, f.id, it.copy).Bernoulli(f.probability);
    if !hit {
      PassKeeps(ing.ordinal, it, rest, w, it, v, base, size);
    } else {
      match f.kind {
        case Loss => LossKeeps(ing.ordinal, it, rest, w, base, size);
        case Duplicate(n) => DuplicateKeeps(ing.ordinal, it, rest, w, n, base, size);
        case _ => PassKeeps(ing.ordinal, it, rest, w, v.items[|w.items|], v, base, size);
      }
    }
  }

  lemma {:induction false} StageKeeps(env: Env, ing: Ingress, stage: nat, rest: seq<Item>, w: Work,
                                      d: nat, base: Evidence, size: nat)
    requires stage < |ing.policy.plan| && d == Factor(ing.policy.plan[stage].kind) - 1
    requires StageInv(ing.ordinal, w, rest, base, size)
    requires w.nextCopy + |rest| * d <= COPY_MAX
    ensures var v := Stage(env, ing, stage, rest, w);
            && StageInv(ing.ordinal, v, [], base, size)
            && v.nextCopy <= w.nextCopy + |rest| * d
    decreases |rest|
  {
    if rest != [] {
      var f := ing.policy.plan[stage];
      Distribute(|rest| - 1, d);
      assert rest == [rest[0]] + rest[1..];
      ApplyFaultKeeps(env, ing, stage, f, rest[0], rest[1..], w, base, size);
      StageKeeps(env, ing, stage, rest[1..], ApplyFault(env, ing, stage, f, rest[0], w), d, base, size);
    }
  }

  lemma {:induction false} Distribute(n: nat, d: nat)
    ensures (n + 1) * d == n * d + d && n * d >= 0
  {
  }

  lemma {:induction false} StagesKeep(env: Env, ing: Ingress, k: nat, w: Work, base: Evidence, size: nat)
    requires k <= |ing.policy.plan| && ValidPlan(ing.policy.plan)
    requires StageInv(ing.ordinal, w, [], base, size)
    requires w.nextCopy <= Amplification(ing.policy.plan[..k])
    ensures var v := Stages(env, ing, k, w);
            && StageInv(ing.ordinal, v, [], base, size)
            && v.nextCopy <= Amplification(ing.policy.plan)
    decreases |ing.policy.plan| - k
  {
    var plan := ing.policy.plan;
    if k == |plan| {
      assert plan[..k] == plan;
    } else {
      StageStep(env, ing, k, w, base, size);
      StagesKeep(env, ing, k + 1, Stage(env, ing, k, w.items, w.(items := [])), base, size);
    }
  }

  /** One whole stage stays within the amplification of the plan so far. */
  lemma {:induction false} StageStep(env: Env, ing: Ingress, k: nat, w: Work, base: Evidence, size: nat)
    requires k < |ing.policy.plan| && Amplification(ing.policy.plan) <= MAX_CANDIDATES
    requires StageInv(ing.ordinal, w, [], base, size)
    requires w.nextCopy <= Amplification(ing.policy.plan[..k])
    ensures var v := Stage(env, ing, k, w.items, w.(items := []));
            StageInv(ing.ordinal, v, [], base, size) && v.nextCopy <= Amplification(ing.policy.plan[..k + 1])
  {
    var plan := ing.policy.plan;
    var d := Factor(plan[k].kind) - 1;
    AmplificationGrows(plan, k + 1);
    assert plan[..k + 1][..k] == plan[..k];
    CopyBudget(w.nextCopy, |w.items|, d, Amplification(plan[..k]));
    var u := w.(items := []);
    assert ItemKeys(ing.ordinal, u.items) + ItemKeys(ing.ordinal, w.items)
        == ItemKeys(ing.ordinal, w.items) + ItemKeys(ing.ordinal, []);
    StageKeeps(env, ing, k, w.items, u, d, base, size);
  }

  lemma {:induction false} CopyBudget(next: nat, items: nat, d: nat, amplification: nat)
    requires items <= next <= amplification
    ensures next + items * d <= amplification * (d + 1)
  {
    assert items * d <= next * d;
    assert next + next * d == next * (d + 1) <= amplification * (d + 1);
  }

  /** Bounded duplication with unique identities: for any plan that validates and any random
      outcomes, one admission hands out at most Amplification(plan) <= 4096 copy numbers, the
      16-bit counter never saturates, the surviving candidates have distinct numbers and the
      original size, and each is the original, a counted copy, or accounted as lost. */
  lemma {:induction false} BoundedDuplication(env: Env, ing: Ingress, s: State, payload: seq<Byte>)
    requires ValidPlan(ing.policy.plan)
    ensures var w := Pipeline(env, ing, s, payload);
            && Unique(ItemKeys(ing.ordinal, w.items)) && AllSized(w.items, |payload|)
            && (forall k :: k in ItemKeys(ing.ordinal, w.items) ==> k.ordinal == ing.ordinal && k.copy < w.nextCopy)
            && |w.items| <= w.nextCopy <= Amplification(ing.policy.plan) <= MAX_CANDIDATES < COPY_MAX
            && |w.items| + w.ev.loss + s.ev.duplicated == 1 + w.ev.duplicated + s.ev.loss
            && SameLedger(w.ev, s.ev)
  {
    var plan := ing.policy.plan;
    assert plan[..0] == [];
    var first := [Item(0, payload, 0)];
    assert ItemKeys(ing.ordinal, first) == multiset{Key(ing.ordinal, 0)} + ItemKeys(ing.ordinal, first[1..]);
    StagesKeep(env, ing, 0, Work(first, 1, s.ev, s.buckets), s.ev, |payload|);
    var w := Pipeline(env, ing, s, payload);
    assert ItemKeys(ing.ordinal, w.items) + ItemKeys(ing.ordinal, []) == ItemKeys(ing.ordinal, w.items);
  }

  // --- The queue ---

  function KeyOf(c: Candidate): Key { Key(c.ordinal, c.copy) }

  /** Strictly increasing in scheduling order. */
  ghost predicate Ordered(q: seq<Candidate>) {
    forall i, j :: 0 <= i < j < |q| ==> Before(q[i], q[j])
  }

  ghost predicate Fresh(q: seq<Candidate>, k: Key) {
    forall i :: 0 <= i < |q| ==> KeyOf(q[i]) != k
  }

  lemma {:induction false} InsertElements(q: seq<Candidate>, c: Candidate, i: nat)
    requires i < |q| + 1
    ensures Insert(q, c)[i] == c || exists j :: 0 <= j < |q| && Insert(q, c)[i] == q[j]
  {
    if q == [] {
    } else if Before(c, q[0]) {
      assert i > 0 ==> Insert(q, c)[i] == q[i - 1];
    } else if i == 0 {
      assert Insert(q, c)[0] == q[0];
    } else {
      InsertElements(q[1..], c, i - 1);
      var x := Insert(q, c)[i];
      if x != c {
        var j :| 0 <= j < |q[1..]| && x == q[1..][j];
        assert x == q[j + 1];
      }
    }
  }

  lemma {:induction false} InsertOrdered(q: seq<Candidate>, c: Candidate)
    requires Ordered(q) && Fresh(q, KeyOf(c))
    ensures Ordered(Insert(q, c))
  {
    if q != [] && !Before(c, q[0]) {
      var r := Insert(q[1..], c);
      InsertOrdered(q[1..], c);
      assert KeyOf(q[0]) != KeyOf(c);
      forall j | 0 <= j < |r| ensures Before(q[0], r[j]) {
        InsertElements(q[1..], c, j);
      }
    }
  }

  lemma {:induction false} InsertBytes(q: seq<Candidate>, c: Candidate)
    ensures PayloadBytes(Insert(q, c)) == PayloadBytes(q) + |c.payload|
  {
    if q == [] || Before(c, q[0]) {
      assert ([c] + q)[1..] == q;
    } else {
      InsertBytes(q[1..], c);
      assert ([q[0]] + Insert(q[1..], c))[1..] == Insert(q[1..], c);
    }
  }

  /** Structure and hard bounds of the queue and its counters. */
  ghost predicate QueueInv(l: Limits, s: State) {
    && Ordered(s.queue)
    && (forall i :: 0 <= i < |s.queue| ==> s.queue[i].ordinal < s.ordinal)
    && s.ev.queued == |s.queue| <= l.maxDatagrams
    && s.ev.queuedBytes == PayloadBytes(s.queue) <= l.maxBytes
    && s.ev.queued <= s.high.datagrams <= l.maxDatagrams
    && s.ev.queuedBytes <= s.high.bytes <= l.maxBytes
  }

  /** Everything admitted or duplicated is emitted, lost, overflowed, oversize, queued, or one of
      the `pending` candidates of the admission in progress. */
  ghost predicate Balanced(s: State, pending: int) {
    s.ev.admitted + s.ev.duplicated
      == s.ev.emitted + s.ev.loss + s.ev.overflow + s.ev.oversize + |s.queue| + pending
  }

  /** The keys a queue holds, with multiplicity. */
  ghost function Keys(q: seq<Candidate>): multiset<Key> {
    if q == [] then multiset{} else multiset{KeyOf(q[0])} + Keys(q[1..])
  }

  ghost function EmittedKeys(log: seq<Scheduled>): multiset<Key> {
    if log == [] then multiset{} else multiset{Key(log[0].ordinal, log[0].copy)} + EmittedKeys(log[1..])
  }

  lemma {:induction false} InsertKeys(q: seq<Candidate>, c: Candidate)
    ensures Keys(Insert(q, c)) == Keys(q) + multiset{KeyOf(c)}
  {
    if q == [] || Before(c, q[0]) {
      assert ([c] + q)[1..] == q;
    } else {
      InsertKeys(q[1..], c);
      assert ([q[0]] + Insert(q[1..], c))[1..] == Insert(q[1..], c);
    }
  }

  lemma {:induction false} FreshMeansAbsent(q: seq<Candidate>, k: Key)
    ensures Fresh(q, k) <==> k !in Keys(q)
  {
    if q != [] {
      FreshMeansAbsent(q[1..], k);
      assert Fresh(q, k) <==> KeyOf(q[0]) != k && Fresh(q[1..], k) by {
        if KeyOf(q[0]) != k && Fresh(q[1..], k) {
          forall i | 0 <= i < |q| ensures KeyOf(q[i]) != k {
            assert i > 0 ==> q[i] == q[1..][i - 1];
          }
        }
      }
    }
  }

  lemma {:induction false} EnqueueKeeps(l: Limits, ing: Ingress, s: State, it: Item, pending: int)
    requires QueueInv(l, s) && ing.ordinal < s.ordinal
    requires Key(ing.ordinal, it.copy) !in Keys(s.queue)
    requires Balanced(s, pending)
    ensures var t := EnqueueOrDrop(l, ing, s, it);
            && QueueInv(l, t) && Balanced(t, pending - 1)
            && t.ordinal == s.ordinal && t.ev.admitted == s.ev.admitted
            && Keys(t.queue) <= Keys(s.queue) + multiset{Key(ing.ordinal, it.copy)}
  {
    if Fits(l, s, |it.payload|) {
      var c := CandidateOf(ing, it);
      FreshMeansAbsent(s.queue, KeyOf(c));
      InsertOrdered(s.queue, c);
      InsertBytes(s.queue, c);
      InsertKeys(s.queue, c);
      var r := Insert(s.queue, c);
      forall i | 0 <= i < |r| ensures r[i].ordinal < s.ordinal {
        InsertElements(s.queue, c, i);
      }
    }
  }

  lemma {:induction false} EnqueueAllKeeps(l: Limits, ing: Ingress, s: State, items: seq<Item>)
    requires QueueInv(l, s) && ing.ordinal < s.ordinal
    requires Unique(Keys(s.queue) + ItemKeys(ing.ordinal, items))
    requires Balanced(s, |items|)
    ensures var t := EnqueueAll(l, ing, s, items);
            && QueueInv(l, t) && Balanced(t, 0)
            && t.ordinal == s.ordinal && t.ev.admitted == s.ev.admitted
            && Keys(t.queue) <= Keys(s.queue) + ItemKeys(ing.ordinal, items)
    decreases |items|
  {
    if items != [] {
      var k := Key(ing.ordinal, items[0].copy);
      var rest := ItemKeys(ing.ordinal, items[1..]);
      var both := Keys(s.queue) + ItemKeys(ing.ordinal, items);
      assert both == Keys(s.queue) + multiset{k} + rest;
      assert k !in Keys(s.queue) by { assert both[k] <= 1; }
      EnqueueKeeps(l, ing, s, items[0], |items|);
      var t := EnqueueOrDrop(l, ing, s, items[0]);
      forall x: Key ensures (Keys(t.queue) + rest)[x] <= 1 {
        assert both[x] <= 1;
      }
      EnqueueAllKeeps(l, ing, t, items[1..]);
    }
  }

  lemma {:induction false} EmitAllKeeps(l: Limits, s: State, items: seq<Item>)
    requires QueueInv(l, s) && s.queue == [] && FitsAll(l, s, |items|, ItemBytes(items))
    requires Balanced(s, |items|)
    ensures var t := EmitAll(s, items);
            && QueueInv(l, t) && Balanced(t, 0) && t.queue == []
            && t.ordinal == s.ordinal && t.ev.admitted == s.ev.admitted
    decreases |items|
  {
    if items != [] {
      EmitAllKeeps(l, EmittedNow(s, |items[0].payload|), items[1..]);
    }
  }

  lemma {:induction false} ReadyKeeps(l: Limits, s: State, now: nat)
    requires QueueInv(l, s) && Balanced(s, 0)
    ensures var (t, out) := Ready(s, now);
            && QueueInv(l, t) && Balanced(t, 0)
            && t.ordinal == s.ordinal && t.ev.admitted == s.ev.admitted
            && Keys(s.queue) == Keys(t.queue) + EmittedKeys(out)
    decreases |s.queue|
  {
    if s.queue != [] && s.queue[0].at <= now {
      assert QueueInv(l, Popped(s));
      ReadyKeeps(l, Popped(s), now);
      var (t, out) := Ready(Popped(s), now);
      assert ([AsScheduled(s.queue[0])] + out)[1..] == out;
    }
  }

  /** The first k candidates of the queue are due, the others are not. */
  ghost predicate DuePrefix(q: seq<Candidate>, now: nat, k: nat) {
    k <= |q| && (forall i :: 0 <= i < |q| ==> (i < k <==> q[i].at <= now))
  }

  /** Draining takes exactly the due candidates, in order: none leaves early, none that is due stays. */
  lemma {:induction false} ReadyTakesDue(s: State, now: nat) returns (k: nat)
    requires Ordered(s.queue)
    ensures DuePrefix(s.queue, now, k)
    ensures Ready(s, now).0.queue == s.queue[k..] && Ready(s, now).1 == Emission(s.queue[..k])
    decreases |s.queue|
  {
    var q := s.queue;
    if q == [] || q[0].at > now {
      k := 0;
      assert forall i :: 0 < i < |q| ==> Before(q[0], q[i]);
    } else {
      assert Ordered(q[1..]);
      var m := ReadyTakesDue(Popped(s), now);
      k := m + 1;
      assert q[..k][1..] == q[1..][..m] && q[k..] == q[1..][m..];
      forall i | 0 <= i < |q| ensures i < k <==> q[i].at <= now {
        assert i > 0 ==> q[i] == q[1..][i - 1];
      }
    }
  }

  lemma {:induction false} KeysBelow(q: seq<Candidate>, bound: nat, k: Key)
    requires forall i :: 0 <= i < |q| ==> q[i].ordinal < bound
    ensures k in Keys(q) ==> k.ordinal < bound
  {
    if q != [] {
      KeysBelow(q[1..], bound, k);
    }
  }

  lemma {:induction false} InsertScheduledKeys(out: seq<Scheduled>, x: Scheduled)
    ensures EmittedKeys(InsertScheduled(out, x)) == EmittedKeys(out) + multiset{Key(x.ordinal, x.copy)}
  {
    if out == [] || x.copy < out[0].copy {
      assert ([x] + out)[1..] == out;
    } else {
      InsertScheduledKeys(out[1..], x);
      assert ([out[0]] + InsertScheduled(out[1..], x))[1..] == InsertScheduled(out[1..], x);
    }
  }

  lemma {:induction false} SortedItemsKeys(ing: Ingress, out: seq<Scheduled>, items: seq<Item>)
    ensures EmittedKeys(SortedItems(ing, out, items)) == EmittedKeys(out) + ItemKeys(ing.ordinal, items)
    decreases |items|
  {
    if items != [] {
      var x := AsScheduled(CandidateOf(ing, items[0]));
      InsertScheduledKeys(out, x);
      SortedItemsKeys(ing, InsertScheduled(out, x), items[1..]);
    }
  }

  // --- Every run ---

  datatype Op = Receive(now: nat, payload: seq<Byte>, policy: Policy) | Drain(now: nat)

  /** The engine together with everything it has handed to the transport. */
  datatype Trace = Trace(s: State, log: seq<Scheduled>)

  function Handed(a: Admission): seq<Scheduled> {
    if a.Immediate? then a.items else []
  }

  function Exec(env: Env, t: Trace, op: Op): Trace {
    match op
    case Receive(now, payload, policy) =>
      var (s, a) := Admit(env, t.s, now, payload, policy);
      Trace(s, t.log + Handed(a))
    case Drain(now) =>
      var (s, out) := Ready(t.s, now);
      Trace(s, t.log + out)
  }

  function Run(env: Env, t: Trace, ops: seq<Op>): Trace
    decreases |ops|
  {
    if ops == [] then t else Run(env, Exec(env, t, ops[0]), ops[1..])
  }

  ghost predicate ValidOps(ops: seq<Op>) {
    forall i :: 0 <= i < |ops| && ops[i].Receive? ==> ValidPlan(ops[i].policy.plan)
  }

  ghost predicate Inv(env: Env, t: Trace) {
    && QueueInv(env.limits, t.s)
    && Balanced(t.s, 0)
    && t.s.ev.admitted == t.s.ordinal
    && Unique(EmittedKeys(t.log) + Keys(t.s.queue))
    && (forall k :: k in EmittedKeys(t.log) ==> k.ordinal < t.s.ordinal)
  }

  lemma {:induction false} EmittedKeysConcat(a: seq<Scheduled>, b: seq<Scheduled>)
    ensures EmittedKeys(a + b) == EmittedKeys(a) + EmittedKeys(b)
  {
    if a == [] {
      assert a + b == b;
    } else {
      assert (a + b)[1..] == a[1..] + b;
      EmittedKeysConcat(a[1..], b);
    }
  }

  /** The empty-plan shortcut is the general admission of the untouched datagram. */
  lemma {:induction false} AdmitShape(env: Env, s: State, now: nat, payload: seq<Byte>, policy: Policy)
    requires |payload| <= env.limits.maxDatagramBytes
    ensures var ing := Ingress(now, s.ordinal, policy);
            var s2 := Observed(Counted(s, |payload|), policy);
            var w := Pipeline(env, ing, s2, payload);
            var s3 := s2.(ev := w.ev, buckets := w.buckets);
            var (t, a) := Admit(env, s, now, payload, policy);
            if a.Immediate? then
              && w.items != [] && AllUndelayed(w.items) && s3.queue == []
              && FitsAll(env.limits, s3, |w.items|, ItemBytes(w.items))
              && t == EmitAll(s3, w.items) && a.items == SortedItems(ing, [], w.items)
            else t == EnqueueAll(env.limits, ing, s3, w.items)
  {
    if policy.plan == [] {
      var it := Item(0, payload, 0);
      var ing := Ingress(now, s.ordinal, policy);
      var s2 := Observed(Counted(s, |payload|), policy);
      assert Pipeline(env, ing, s2, payload) == Work([it], 1, s2.ev, s2.buckets);
      assert [it][1..] == [];
      assert ItemBytes([it]) == |payload| + ItemBytes([it][1..]);
      assert EmitAll(s2, [it]) == EmitAll(EmittedNow(s2, |payload|), [it][1..]);
      assert EnqueueAll(env.limits, ing, s2, [it])
          == EnqueueAll(env.limits, ing, EnqueueOrDrop(env.limits, ing, s2, it), [it][1..]);
      assert SortedItems(ing, [], [it]) == SortedItems(ing, [AsScheduled(CandidateOf(ing, it))], [it][1..]);
    }
  }

  /** New keys carry the new ordinal, so they cannot repeat any key already held. */
  lemma {:induction false} FreshKeys(env: Env, t: Trace, added: multiset<Key>)
    requires Inv(env, t) && Unique(added)
    requires forall k :: k in added ==> k.ordinal == t.s.ordinal
    ensures Unique(EmittedKeys(t.log) + Keys(t.s.queue) + added)
    ensures Unique(Keys(t.s.queue) + added)
  {
    var held := EmittedKeys(t.log) + Keys(t.s.queue);
    forall k: Key ensures (held + added)[k] <= 1 && (Keys(t.s.queue) + added)[k] <= 1 {
      KeysBelow(t.s.queue, t.s.ordinal, k);
      assert held[k] <= 1 && added[k] <= 1;
    }
  }

  /** The state in which an admission's surviving candidates are scheduled. */
  ghost predicate Scheduling(env: Env, t: Trace, ing: Ingress, s: State, items: seq<Item>) {
    && Inv(env, t) && ing.ordinal == t.s.ordinal
    && QueueInv(env.limits, s) && Balanced(s, |items|) && s.queue == t.s.queue
    && s.ordinal == s.ev.admitted == t.s.ordinal + 1
    && Unique(ItemKeys(ing.ordinal, items))
    && (forall k :: k in ItemKeys(ing.ordinal, items) ==> k.ordinal == ing.ordinal)
  }

  lemma {:induction false} EmitKeeps(env: Env, t: Trace, ing: Ingress, s: State, items: seq<Item>)
    requires Scheduling(env, t, ing, s, items)
    requires s.queue == [] && FitsAll(env.limits, s, |items|, ItemBytes(items))
    ensures Inv(env, Trace(EmitAll(s, items), t.log + SortedItems(ing, [], items)))
  {
    var added := ItemKeys(ing.ordinal, items);
    FreshKeys(env, t, added);
    EmitAllKeeps(env.limits, s, items);
    var out := SortedItems(ing, [], items);
    SortedItemsKeys(ing, [], items);
    EmittedKeysConcat(t.log, out);
    assert EmittedKeys(t.log + out) == EmittedKeys(t.log) + added;
    assert EmittedKeys(t.log + out) + Keys([]) == EmittedKeys(t.log) + Keys(t.s.queue) + added;
  }

  lemma {:induction false} QueueKeeps(env: Env, t: Trace, ing: Ingress, s: State, items: seq<Item>)
    requires Scheduling(env, t, ing, s, items)
    ensures Inv(env, Trace(EnqueueAll(env.limits, ing, s, items), t.log))
  {
    var added := ItemKeys(ing.ordinal, items);
    FreshKeys(env, t, added);
    EnqueueAllKeeps(env.limits, ing, s, items);
    var r := EnqueueAll(env.limits, ing, s, items);
    UniqueBelow(EmittedKeys(t.log) + Keys(r.queue), EmittedKeys(t.log) + Keys(t.s.queue) + added);
  }

  lemma {:induction false} UniqueBelow(a: multiset<Key>, b: multiset<Key>)
    requires Unique(b) && a <= b
    ensures Unique(a)
  {
    forall k: Key ensures a[k] <= 1 {
      assert b[k] <= 1;
    }
  }

  lemma {:induction false} ReceiveKeeps(env: Env, t: Trace, now: nat, payload: seq<Byte>, policy: Policy)
    requires Inv(env, t) && ValidPlan(policy.plan)
    ensures Inv(env, Exec(env, t, Receive(now, payload, policy)))
  {
    var (s', a) := Admit(env, t.s, now, payload, policy);
    if |payload| <= env.limits.maxDatagramBytes {
      var ing := Ingress(now, t.s.ordinal, policy);
      var s2 := Observed(Counted(t.s, |payload|), policy);
      var w := Pipeline(env, ing, s2, payload);
      AdmitShape(env, t.s, now, payload, policy);
      BoundedDuplication(env, ing, s2, payload);
      var s3 := s2.(ev := w.ev, buckets := w.buckets);
      assert Scheduling(env, t, ing, s3, w.items);
      if a.Immediate? {
        EmitKeeps(env, t, ing, s3, w.items);
      } else {
        QueueKeeps(env, t, ing, s3, w.items);
        assert t.log + [] == t.log;
      }
    } else {
      assert t.log + [] == t.log;
    }
  }

  lemma {:induction false} DrainKeeps(env: Env, t: Trace, now: nat)
    requires Inv(env, t)
    ensures Inv(env, Exec(env, t, Drain(now)))
  {
    ReadyKeeps(env.limits, t.s, now);
    var (s, out) := Ready(t.s, now);
    var before, gone, left := EmittedKeys(t.log), EmittedKeys(out), Keys(s.queue);
    EmittedKeysConcat(t.log, out);
    assert before + gone + left == before + Keys(t.s.queue);
    forall k | k in before + gone ensures k.ordinal < t.s.ordinal {
      assert k in Keys(t.s.queue) || k in before;
      KeysBelow(t.s.queue, t.s.ordinal, k);
    }
  }

  /** Conservation, hard bounds and unique identities in every reachable state, for any
      interleaving of admissions (under any validated plans, live-updated or not) and drains. */
  lemma {:induction false} RunKeeps(env: Env, t: Trace, ops: seq<Op>)
    requires Inv(env, t) && ValidOps(ops)
    ensures Inv(env, Run(env, t, ops))
    decreases |ops|
  {
    if ops != [] {
      match ops[0] {
        case Receive(now, payload, policy) => ReceiveKeeps(env, t, now, payload, policy);
        case Drain(now) => DrainKeeps(env, t, now);
      }
      RunKeeps(env, Exec(env, t, ops[0]), ops[1..]);
    }
  }

  /** What a fresh engine has counted after a run: conservation, counters that mirror the queue, hard
      bounds, and pairwise distinct identities over everything ever emitted or queued. */
  lemma {:induction false} EngineRuns(env: Env, ops: seq<Op>)
    requires ValidOps(ops)
    ensures var t := Run(env, Trace(START, []), ops); var ev := t.s.ev;
            && ev.admitted + ev.duplicated == ev.emitted + ev.loss + ev.overflow + ev.oversize + ev.queued
            && ev.queued == |t.s.queue| && ev.queuedBytes == PayloadBytes(t.s.queue)
            && ev.queued <= t.s.high.datagrams <= env.limits.maxDatagrams
            && ev.queuedBytes <= t.s.high.bytes <= env.limits.maxBytes
            && Unique(EmittedKeys(t.log) + Keys(t.s.queue))
  {
    RunKeeps(env, Trace(START, []), ops);
  }

  /** Drain at the next deadline until nothing is queued. */
  ghost function DrainOut(env: Env, t: Trace): Trace
    requires Inv(env, t)
    decreases |t.s.queue|
  {
    if t.s.queue == [] then t
    else
      DrainKeeps(env, t, t.s.queue[0].at);
      DrainProgress(t.s);
      DrainOut(env, Exec(env, t, Drain(t.s.queue[0].at)))
  }

  /** Draining at the next deadline takes at least the head. */
  lemma {:induction false} DrainProgress(s: State)
    requires s.queue != [] && Ordered(s.queue)
    ensures |Ready(s, s.queue[0].at).0.queue| < |s.queue|
  {
    var k := ReadyTakesDue(s, s.queue[0].at);
  }

  /** Draining deadline by deadline empties the queue, and then everything admitted or duplicated was
      emitted, lost, overflowed or oversize. */
  lemma {:induction false} DrainedOut(env: Env, t: Trace)
    requires Inv(env, t)
    ensures var u := DrainOut(env, t); var ev := u.s.ev;
            && u.s.queue == [] && ev.queued == 0 && ev.queuedBytes == 0
            && ev.emitted + ev.loss + ev.overflow + ev.oversize == ev.admitted + ev.duplicated
            && ev.admitted == t.s.ev.admitted && ev.duplicated == t.s.ev.duplicated
    decreases |t.s.queue|
  {
    if t.s.queue != [] {
      DrainKeeps(env, t, t.s.queue[0].at);
      DrainProgress(t.s);
      ReadyLedger(t.s, t.s.queue[0].at);
      DrainedOut(env, Exec(env, t, Drain(t.s.queue[0].at)));
    }
  }

  lemma {:induction false} ReadyLedger(s: State, now: nat)
    ensures Ready(s, now).0.ev.admitted == s.ev.admitted && Ready(s, now).0.ev.duplicated == s.ev.duplicated
    decreases |s.queue|
  {
    if s.queue != [] && s.queue[0].at <= now {
      ReadyLedger(Popped(s), now);
    }
  }

  /** From a fresh engine, whatever was admitted under whatever validated plans. */
  lemma {:induction false} EngineDrains(env: Env, ops: seq<Op>)
    requires ValidOps(ops)
    ensures Inv(env, Run(env, Trace(START, []), ops))
    ensures var ev := DrainOut(env, Run(env, Trace(START, []), ops)).s.ev;
            && ev.queued == 0 && ev.queuedBytes == 0
            && ev.emitted + ev.loss + ev.overflow + ev.oversize == ev.admitted + ev.duplicated
  {
    RunKeeps(env, Trace(START, []), ops);
    DrainedOut(env, Run(env, Trace(START, []), ops));
  }
}
