/** Where every datagram comes from and when it may leave: each queued or emitted candidate has a lineage
    through the stages from one arrival, and the delays of its lineage are served before it leaves. */
module DatagramLineage {
  import opened Common
  import opened Corruption
  import opened DatagramBucket
  import opened DatagramPlan
  import opened Datagram
  import opened DatagramProofs
  import opened DatagramConformance

  // --- One stage on one candidate ---

  /** Whether stage k strikes the candidate with this copy number: a draw of its own for every stage,
      datagram and copy. */
  predicate Struck(env: Env, ing: Ingress, k: nat, copy: nat)
    requires k < |ing.policy.plan|
  {
    var f := ing.policy.plan[k];
    var seed := env.seedOf(SeedKey(ing.policy.seedNamespace, copy, ing.ordinal, k, f.id));
    Rng(env.step, seed).Bernoulli(f.probability).0
  }

  /** The least and the most a delaying stage adds; jitter is drawn in 64 bits. */
  function Least(kind: Kind): nat {
    match kind
    case Delay(delay, jitter) => if jitter == 0 then delay else Min(Minus(delay, jitter), U64_MAX)
    case Reorder(hold) => hold
    case _ => 0
  }

  function Most(kind: Kind): nat {
    match kind
    case Delay(delay, jitter) => if jitter == 0 then delay else Min(delay + jitter, U64_MAX)
    case Reorder(hold) => hold
    case _ => 0
  }

  lemma {:induction false} JitterBounds(delay: nat, jitter: nat, rng: Rng)
    ensures Least(Delay(delay, jitter)) <= Jittered(delay, jitter, rng) <= Most(Delay(delay, jitter))
  {
  }

  /** A bandwidth fault under watch, with every charge the run makes to it. */
  datatype Account = Unmetered | Metered(id: string, rate: pos, burst: pos, all: seq<Request>)

  /** Charge m was made for candidate a on arrival, and b is a held until the release of that charge. */
  ghost predicate Pays(acc: Account, m: nat, ing: Ingress, a: Item, b: Item)
    requires acc.Metered?
  {
    && m < |acc.all| && acc.all[m] == Request(ing.now, |a.payload|)
    && ing.now + b.delay - a.delay == Release(acc.all, m, acc.rate, acc.burst)
  }

  /** A permutation of the payload with one bit flipped in each of the first n bytes. */
  ghost predicate Damaged(payload: seq<Byte>, out: seq<Byte>, n: nat) {
    exists p: seq<Byte> :: multiset(p) == multiset(payload) && FlippedBetween(p, out, 0, Min(n, |payload|))
  }

  /** Stage k may turn candidate a into b. A struck loss turns it into nothing. */
  ghost predicate Step(env: Env, ing: Ingress, k: nat, acc: Account, a: Item, b: Item)
    requires k < |ing.policy.plan|
  {
    var f := ing.policy.plan[k];
    if !Struck(env, ing, k, a.copy) then b == a
    else
      match f.kind
      case Loss => false
      case Duplicate(_) => b == a.(copy := b.copy)
      case PayloadCorrupt(n) => b == a.(payload := b.payload) && Damaged(a.payload, b.payload, n)
      case Bandwidth(_, _) =>
        && b == a.(delay := b.delay) && a.delay <= b.delay
        && (acc.Metered? && acc.id == f.id ==> exists m: nat :: Pays(acc, m, ing, a, b))
      case _ => b == a.(delay := b.delay) && Least(f.kind) <= b.delay - a.delay <= Most(f.kind)
  }

  /** How many candidates stage k makes of one. */
  ghost function Outputs(env: Env, ing: Ingress, k: nat, it: Item): nat
    requires k < |ing.policy.plan|
  {
    var kind := ing.policy.plan[k].kind;
    if !Struck(env, ing, k, it.copy) then 1
    else if kind.Loss? then 0
    else Factor(kind)
  }

  /** What the stage counts: a loss, the copies, a corruption, a reordering, and the delay it added, each
      under its own counter. */
  ghost function Tally(env: Env, ing: Ingress, k: nat, it: Item, added: nat, ev: Evidence): Evidence
    requires k < |ing.policy.plan|
  {
    if !Struck(env, ing, k, it.copy) then ev
    else
      match ing.policy.plan[k].kind
      case Loss => ev.(loss := ev.loss + 1)
      case Duplicate(n) => ev.(duplicated := ev.duplicated + n)
      case PayloadCorrupt(_) => ev.(corrupted := ev.corrupted + if it.payload == [] then 0 else 1)
      case Bandwidth(_, _) => ev.(bandwidthNanos := ev.bandwidthNanos + added)
      case Delay(_, _) => ev.(injectedNanos := ev.injectedNanos + added)
      case Reorder(_) => ev.(injectedNanos := ev.injectedNanos + added, reordered := ev.reordered + 1)
  }

  ghost predicate AllSteps(env: Env, ing: Ingress, k: nat, acc: Account, it: Item, out: seq<Item>)
    requires k < |ing.policy.plan|
  {
    forall j :: 0 <= j < |out| ==> Step(env, ing, k, acc, it, out[j])
  }

  /** One stage on one candidate: it appends exactly its outputs, the candidate itself first, each as the
      fault's kind allows; and it counts exactly what it did. */
  lemma {:induction false} ApplyOutcome(env: Env, ing: Ingress, k: nat, it: Item, w: Work) returns (out: seq<Item>)
    requires k < |ing.policy.plan|
    ensures var v := ApplyFault(env, ing, k, ing.policy.plan[k], it, w);
            && v.items == w.items + out && |out| == Outputs(env, ing, k, it)
            && AllSteps(env, ing, k, Unmetered, it, out)
            && (out != [] ==> out[0].copy == it.copy)
            && v.ev == Tally(env, ing, k, it, if out == [] then 0 else out[0].delay - it.delay, w.ev)
  {
    var f := ing.policy.plan[k];
    var v := ApplyFault(env, ing, k, f, it, w);
    var (hit, rng) := StageRng(env, ing, k, f.id, it.copy).Bernoulli(f.probability);
    if !hit {
      out := [it];
    } else {
      match f.kind {
        case Loss => out := [];
        case Duplicate(n) =>
          out := [it] + Copies(it, w.nextCopy, n);
          assert v.items == w.items + out;
        case PayloadCorrupt(n) =>
          out := CorruptOutcome(env, ing, k, it, w);
        case Bandwidth(_, _) => out := [v.items[|w.items|]];
        case Delay(delay, jitter) =>
          JitterBounds(delay, jitter, rng);
          out := [v.items[|w.items|]];
        case Reorder(_) => out := [v.items[|w.items|]];
      }
    }
  }

  lemma {:induction false} CorruptOutcome(env: Env, ing: Ingress, k: nat, it: Item, w: Work) returns (out: seq<Item>)
    requires k < |ing.policy.plan| && ing.policy.plan[k].kind.PayloadCorrupt? && Struck(env, ing, k, it.copy)
    ensures var v := ApplyFault(env, ing, k, ing.policy.plan[k], it, w);
            && v.items == w.items + out && |out| == 1 && Step(env, ing, k, Unmetered, it, out[0])
            && v.ev == w.ev.(corrupted := w.ev.corrupted + if it.payload == [] then 0 else 1)
  {
    var f := ing.policy.plan[k];
    var n := f.kind.bytes;
    var rng := StageRng(env, ing, k, f.id, it.copy).Bernoulli(f.probability).1;
    var p := CorruptShape(it.payload, 0, Min(n, |it.payload|), rng);
    if it.payload == [] {
      out := [it];
      assert FlippedBetween([], it.payload, 0, Min(n, |it.payload|));
    } else {
      out := [it.(payload := Corrupt(it.payload, 0, Min(n, |it.payload|), rng).0)];
    }
  }

  // --- The same with a watched account ---

  /** The account follows the plan: the plan keeps the watched fault. */
  ghost predicate Follows(acc: Account, plan: seq<Fault>) {
    acc.Metered? ==> Keeps(plan, acc.id, acc.rate, acc.burst)
  }

  /** The watched bucket served `reqs`, and `next` are its next charges. */
  ghost predicate Serving(acc: Account, buckets: map<string, Bucket>, reqs: seq<Request>, next: seq<Request>) {
    acc.Metered? ==> Served(buckets, acc.id, reqs, acc.rate, acc.burst) && reqs + next <= acc.all
  }

  ghost function Watched(acc: Account): string { if acc.Metered? then acc.id else "" }

  lemma {:induction false} ReleasePrefix(reqs: seq<Request>, all: seq<Request>, i: nat, rate: pos, burst: pos)
    requires reqs <= all && i < |reqs|
    ensures all[i] == reqs[i] && Release(all, i, rate, burst) == Release(reqs, i, rate, burst)
  {
    assert reqs + all[|reqs|..] == all;
    AfterPrefix(reqs, all[|reqs|..], i, rate, burst);
  }

  lemma {:induction false} ServingSplit(acc: Account, buckets: map<string, Bucket>, reqs: seq<Request>,
                                        first: seq<Request>, more: seq<Request>)
    requires acc.Metered? && Served(buckets, acc.id, reqs + first, acc.rate, acc.burst)
    requires reqs + (first + more) <= acc.all
    ensures reqs + first <= acc.all && Serving(acc, buckets, reqs + first, more)
  {
    Associative(reqs, first, more);
    var both := reqs + first;
    assert both == (both + more)[..|both|];
  }

  /** One stage on one candidate: every output is held until the release of the charge it made. */
  lemma {:induction false} ApplySteps(env: Env, ing: Ingress, k: nat, acc: Account, it: Item, w: Work,
                                      reqs: seq<Request>, more: seq<Request>)
      returns (out: seq<Item>)
    requires k < |ing.policy.plan| && Follows(acc, ing.policy.plan)
    requires Serving(acc, w.buckets, reqs, ChargeOf(env, ing, k, ing.policy.plan[k], it, Watched(acc)) + more)
    ensures var (f, id) := (ing.policy.plan[k], Watched(acc));
            var v := ApplyFault(env, ing, k, f, it, w);
            && v.items == w.items + out && AllSteps(env, ing, k, acc, it, out)
            && Serving(acc, v.buckets, reqs + ChargeOf(env, ing, k, f, it, id), more)
  {
    out := ApplyOutcome(env, ing, k, it, w);
    var f := ing.policy.plan[k];
    if acc.Metered? {
      var v := ApplyFault(env, ing, k, f, it, w);
      var charge := ChargeOf(env, ing, k, f, it, acc.id);
      ApplyCharged(env, ing, k, it, w, acc.id, reqs, acc.rate, acc.burst);
      ServingSplit(acc, v.buckets, reqs, charge, more);
      if charge != [] {
        assert out[0] == v.items[|w.items|];
        ReleasePrefix(reqs + charge, acc.all, |reqs|, acc.rate, acc.burst);
        assert Pays(acc, |reqs|, ing, it, out[0]);
      }
      assert AllSteps(env, ing, k, acc, it, out);
    }
  }

  // --- Lineages ---

  /** An arrival and one candidate's form after each stage passed so far. */
  datatype Lineage = Lineage(ing: Ingress, payload: seq<Byte>, path: seq<Item>) {
    ghost predicate Reaches(env: Env, acc: Account, k: nat) {
      && |path| == k + 1 && k <= |ing.policy.plan|
      && path[0] == Item(0, payload, 0)
      && forall i :: 0 <= i < k ==> Step(env, ing, i, acc, path[i], path[i + 1])
    }

    ghost predicate Valid(env: Env, acc: Account) { path != [] && Reaches(env, acc, |path| - 1) }
  }

  /** The candidate has a lineage through the first k stages. */
  ghost predicate Descends(env: Env, ing: Ingress, payload: seq<Byte>, acc: Account, k: nat, it: Item) {
    exists path: seq<Item> :: Lineage(ing, payload, path).Reaches(env, acc, k) && path[k] == it
  }

  ghost predicate AllDescend(env: Env, ing: Ingress, payload: seq<Byte>, acc: Account, k: nat, items: seq<Item>) {
    forall i :: 0 <= i < |items| ==> Descends(env, ing, payload, acc, k, items[i])
  }

  lemma {:induction false} StepDescends(env: Env, ing: Ingress, payload: seq<Byte>, acc: Account, k: nat, a: Item,
                                        b: Item)
    requires k < |ing.policy.plan| && Descends(env, ing, payload, acc, k, a) && Step(env, ing, k, acc, a, b)
    ensures Descends(env, ing, payload, acc, k + 1, b)
  {
    var path :| Lineage(ing, payload, path).Reaches(env, acc, k) && path[k] == a;
    var longer := path + [b];
    assert Lineage(ing, payload, longer).Reaches(env, acc, k + 1) && longer[k + 1] == b;
  }

  lemma {:induction false} OutputsDescend(env: Env, ing: Ingress, payload: seq<Byte>, acc: Account, k: nat, it: Item,
                                          items: seq<Item>, out: seq<Item>)
    requires k < |ing.policy.plan| && Descends(env, ing, payload, acc, k, it)
    requires AllSteps(env, ing, k, acc, it, out) && AllDescend(env, ing, payload, acc, k + 1, items)
    ensures AllDescend(env, ing, payload, acc, k + 1, items + out)
  {
    forall i | 0 <= i < |items + out| ensures Descends(env, ing, payload, acc, k + 1, (items + out)[i]) {
      if i >= |items| {
        StepDescends(env, ing, payload, acc, k, it, out[i - |items|]);
      }
    }
  }

  lemma {:induction false} StageDescends(env: Env, ing: Ingress, payload: seq<Byte>, acc: Account, k: nat,
                                         rest: seq<Item>, w: Work, reqs: seq<Request>, more: seq<Request>)
    requires k < |ing.policy.plan| && Follows(acc, ing.policy.plan)
    requires Serving(acc, w.buckets, reqs, StageCharges(env, ing, k, rest, Watched(acc)) + more)
    requires AllDescend(env, ing, payload, acc, k, rest) && AllDescend(env, ing, payload, acc, k + 1, w.items)
    ensures var v := Stage(env, ing, k, rest, w);
            && AllDescend(env, ing, payload, acc, k + 1, v.items)
            && Serving(acc, v.buckets, reqs + StageCharges(env, ing, k, rest, Watched(acc)), more)
    decreases |rest|
  {
    if rest == [] {
      assert reqs + [] == reqs && [] + more == more;
    } else {
      var (f, id) := (ing.policy.plan[k], Watched(acc));
      var first, later := ChargeOf(env, ing, k, f, rest[0], id), StageCharges(env, ing, k, rest[1..], id);
      Associative(first, later, more);
      var out := ApplySteps(env, ing, k, acc, rest[0], w, reqs, later + more);
      OutputsDescend(env, ing, payload, acc, k, rest[0], w.items, out);
      StageDescends(env, ing, payload, acc, k, rest[1..], ApplyFault(env, ing, k, f, rest[0], w), reqs + first, more);
      Associative(reqs, first, later);
    }
  }

  lemma {:induction false} StagesDescend(env: Env, ing: Ingress, payload: seq<Byte>, acc: Account, k: nat, w: Work,
                                         reqs: seq<Request>, more: seq<Request>)
    requires k <= |ing.policy.plan| && Follows(acc, ing.policy.plan)
    requires Serving(acc, w.buckets, reqs, StagesCharges(env, ing, k, w, Watched(acc)) + more)
    requires AllDescend(env, ing, payload, acc, k, w.items)
    ensures var v := Stages(env, ing, k, w);
            && AllDescend(env, ing, payload, acc, |ing.policy.plan|, v.items)
            && Serving(acc, v.buckets, reqs + StagesCharges(env, ing, k, w, Watched(acc)), more)
    decreases |ing.policy.plan| - k
  {
    if k == |ing.policy.plan| {
      assert reqs + [] == reqs && [] + more == more;
    } else {
      var id := Watched(acc);
      var next := Stage(env, ing, k, w.items, w.(items := []));
      var first, later := StageCharges(env, ing, k, w.items, id), StagesCharges(env, ing, k + 1, next, id);
      Associative(first, later, more);
      StageDescends(env, ing, payload, acc, k, w.items, w.(items := []), reqs, later + more);
      StagesDescend(env, ing, payload, acc, k + 1, next, reqs + first, more);
      Associative(reqs, first, later);
    }
  }
}
