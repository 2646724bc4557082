/** Immediate emission refines queue-then-drain: an engine that skips the queue whenever it may is
    indistinguishable from one that always enqueues. */
module DatagramRefinement {
  import opened Common
  import opened DatagramPlan
  import opened Datagram
  import opened DatagramProofs

  datatype Arrival = Arrival(now: nat, payload: seq<Byte>, policy: Policy)

  /** One turn of the embedding loop: a datagram arrives and what is due is taken afterwards, at a fresh
      reading of the clock; or a timer fires and what is due is taken. */
  datatype Turn = Arrive(arrival: Arrival, drain: nat) | Timer(now: nat)

  function Serve(env: Env, t: Trace, turn: Turn): Trace {
    match turn
    case Arrive(a, drain) => Exec(env, Exec(env, t, Receive(a.now, a.payload, a.policy)), Drain(drain))
    case Timer(now) => Exec(env, t, Drain(now))
  }

  /** The same turn on the engine that always enqueues. */
  function ServeByQueue(env: Env, t: Trace, turn: Turn): Trace {
    match turn
    case Arrive(a, drain) => Exec(env, Trace(AdmitByQueue(env, t.s, a.now, a.payload, a.policy), t.log), Drain(drain))
    case Timer(now) => Exec(env, t, Drain(now))
  }

  function ServeAll(env: Env, t: Trace, turns: seq<Turn>): Trace
    decreases |turns|
  {
    if turns == [] then t else ServeAll(env, Serve(env, t, turns[0]), turns[1..])
  }

  function ServeAllByQueue(env: Env, t: Trace, turns: seq<Turn>): Trace
    decreases |turns|
  {
    if turns == [] then t else ServeAllByQueue(env, ServeByQueue(env, t, turns[0]), turns[1..])
  }

  /** Plans are validated, and the clock does not run backwards between an admission and its drain. */
  ghost predicate ValidTurn(turn: Turn) {
    turn.Arrive? ==> ValidPlan(turn.arrival.policy.plan) && turn.arrival.now <= turn.drain
  }

  ghost predicate ValidTurns(turns: seq<Turn>) {
    forall i :: 0 <= i < |turns| ==> ValidTurn(turns[i])
  }

  /** No plan of the run duplicates. */
  ghost predicate Unamplified(turns: seq<Turn>) {
    forall i :: 0 <= i < |turns| && turns[i].Arrive? ==> Amplification(turns[i].arrival.policy.plan) == 1
  }

  ghost predicate NotAbove(a: HighWater, b: HighWater) {
    a.datagrams <= b.datagrams && a.bytes <= b.bytes
  }

  /** Equal in everything but the high-water marks, which skipping the queue can only lower. */
  ghost predicate Agree(s: State, r: State) {
    s.(high := r.high) == r && NotAbove(s.high, r.high)
  }

  // --- The queue path does not depend on the high-water marks ---

  lemma {:induction false} EnqueueAllAgrees(l: Limits, ing: Ingress, s: State, r: State, items: seq<Item>)
    requires Agree(s, r)
    ensures Agree(EnqueueAll(l, ing, s, items), EnqueueAll(l, ing, r, items))
    ensures s == r ==> EnqueueAll(l, ing, s, items) == EnqueueAll(l, ing, r, items)
    decreases |items|
  {
    if items != [] {
      EnqueueAllAgrees(l, ing, EnqueueOrDrop(l, ing, s, items[0]), EnqueueOrDrop(l, ing, r, items[0]), items[1..]);
    }
  }

  lemma {:induction false} ReadyAgrees(s: State, r: State, now: nat)
    requires Agree(s, r)
    ensures Agree(Ready(s, now).0, Ready(r, now).0) && Ready(s, now).1 == Ready(r, now).1
    decreases |s.queue|
  {
    if s.queue != [] && s.queue[0].at <= now {
      ReadyAgrees(Popped(s), Popped(r), now);
    }
  }

  // --- Undelayed candidates through an empty queue ---

  ghost predicate Simultaneous(q: seq<Candidate>, ing: Ingress) {
    forall i :: 0 <= i < |q| ==> q[i].at == ing.now && q[i].ordinal == ing.ordinal
  }

  lemma {:induction false} InsertMatches(q: seq<Candidate>, c: Candidate, ing: Ingress)
    requires Simultaneous(q, ing) && c.at == ing.now && c.ordinal == ing.ordinal
    ensures Simultaneous(Insert(q, c), ing)
    ensures Emission(Insert(q, c)) == InsertScheduled(Emission(q), AsScheduled(c))
  {
    var e := Emission(q);
    if q == [] || Before(c, q[0]) {
      assert ([c] + q)[1..] == q;
    } else {
      InsertMatches(q[1..], c, ing);
      assert ([q[0]] + Insert(q[1..], c))[1..] == Insert(q[1..], c);
      assert e[1..] == Emission(q[1..]);
    }
  }

  /** What enqueueing undelayed candidates that all fit does to the state. */
  lemma {:induction false} EnqueueUndelayed(l: Limits, ing: Ingress, r: State, items: seq<Item>)
    requires Simultaneous(r.queue, ing) && AllUndelayed(items)
    requires FitsAll(l, r, |items|, ItemBytes(items))
    ensures var u := EnqueueAll(l, ing, r, items);
            && Simultaneous(u.queue, ing)
            && Emission(u.queue) == SortedItems(ing, Emission(r.queue), items)
            && |u.queue| == |r.queue| + |items| && PayloadBytes(u.queue) == PayloadBytes(r.queue) + ItemBytes(items)
            && u == r.(queue := u.queue, high := u.high,
                       ev := r.ev.(queued := r.ev.queued + |items|, queuedBytes := r.ev.queuedBytes + ItemBytes(items)))
            && NotAbove(r.high, u.high)
            && (items != [] ==> u.ev.queued <= u.high.datagrams && u.ev.queuedBytes <= u.high.bytes)
    decreases |items|
  {
    if items != [] {
      var c := CandidateOf(ing, items[0]);
      InsertMatches(r.queue, c, ing);
      InsertBytes(r.queue, c);
      EnqueueUndelayed(l, ing, Enqueued(r, c), items[1..]);
    }
  }

  lemma {:induction false} EmitAllState(s: State, items: seq<Item>, top: HighWater)
    requires NotAbove(s.high, top)
    requires items != [] ==> s.ev.queued + 1 <= top.datagrams && s.ev.queuedBytes + ItemBytes(items) <= top.bytes
    ensures var t := EmitAll(s, items);
            && t == s.(high := t.high,
                       ev := s.ev.(emitted := s.ev.emitted + |items|,
                                   emittedBytes := s.ev.emittedBytes + ItemBytes(items)))
            && NotAbove(t.high, top)
    decreases |items|
  {
    if items != [] {
      EmitAllState(EmittedNow(s, |items[0].payload|), items[1..], top);
    }
  }

  lemma {:induction false} ReadyTakesAll(s: State, ing: Ingress, at: nat)
    requires Simultaneous(s.queue, ing) && ing.now <= at
    requires s.ev.queued >= |s.queue| && s.ev.queuedBytes >= PayloadBytes(s.queue)
    ensures Ready(s, at).1 == Emission(s.queue)
    ensures Ready(s, at).0
         == s.(queue := [],
               ev := s.ev.(queued := s.ev.queued - |s.queue|, queuedBytes := s.ev.queuedBytes - PayloadBytes(s.queue),
                           emitted := s.ev.emitted + |s.queue|,
                             emittedBytes := s.ev.emittedBytes + PayloadBytes(s.queue)))
    decreases |s.queue|
  {
    if s.queue != [] {
      ReadyTakesAll(Popped(s), ing, at);
    }
  }

  /** On an empty queue, emitting undelayed candidates at once and draining them through the queue, then or
      later, give the same output and the same state. */
  lemma {:induction false} EmitMatchesQueue(l: Limits, ing: Ingress, s: State, r: State, items: seq<Item>, at: nat)
    requires Agree(s, r) && s.queue == [] && s.ev.queued == 0 && s.ev.queuedBytes == 0
    requires AllUndelayed(items) && items != [] && FitsAll(l, s, |items|, ItemBytes(items)) && ing.now <= at
    ensures var u := EnqueueAll(l, ing, r, items);
            && Ready(u, at).1 == SortedItems(ing, [], items)
            && Agree(EmitAll(s, items), Ready(u, at).0) && EmitAll(s, items).queue == []
            && (s == r && |items| == 1 ==> EmitAll(s, items) == Ready(u, at).0)
  {
    EnqueueUndelayed(l, ing, r, items);
    var u := EnqueueAll(l, ing, r, items);
    ReadyTakesAll(u, ing, at);
    EmitAllState(s, items, u.high);
    if |items| == 1 {
      assert items[1..] == [];
      assert u == Enqueued(r, CandidateOf(ing, items[0]));
      assert EmitAll(s, items) == EmitAll(EmittedNow(s, |items[0].payload|), items[1..]);
    }
  }

  // --- One turn, and every run ---

  /** An arrival and the drain after it. */
  lemma {:induction false} ArriveAgrees(env: Env, t: Trace, u: Trace, a: Arrival, drain: nat)
    requires Inv(env, t) && ValidPlan(a.policy.plan) && a.now <= drain
    requires Agree(t.s, u.s) && t.log == u.log
    ensures var (x, y) := (Serve(env, t, Arrive(a, drain)), ServeByQueue(env, u, Arrive(a, drain)));
            && Agree(x.s, y.s) && x.log == y.log
            && (t.s == u.s && Amplification(a.policy.plan) == 1 ==> x.s == y.s)
  {
    var r' := AdmitByQueue(env, u.s, a.now, a.payload, a.policy);
    var (s', adm) := Admit(env, t.s, a.now, a.payload, a.policy);
    if |a.payload| > env.limits.maxDatagramBytes {
      ReadyAgrees(s', r', drain);
      assert t.log + [] == t.log;
    } else {
      var ing := Ingress(a.now, t.s.ordinal, a.policy);
      var s2 := Observed(Counted(t.s, |a.payload|), a.policy);
      var r2 := Observed(Counted(u.s, |a.payload|), a.policy);
      assert Agree(s2, r2);
      var w := Pipeline(env, ing, s2, a.payload);
      var s3, r3 := s2.(ev := w.ev, buckets := w.buckets), r2.(ev := w.ev, buckets := w.buckets);
      assert Agree(s3, r3);
      AdmitShape(env, t.s, a.now, a.payload, a.policy);
      BoundedDuplication(env, ing, s2, a.payload);
      assert r' == EnqueueAll(env.limits, ing, r3, w.items);
      if adm.Immediate? {
        EmitMatchesQueue(env.limits, ing, s3, r3, w.items, drain);
        assert t.log + adm.items + [] == t.log + adm.items;
      } else {
        EnqueueAllAgrees(env.limits, ing, s3, r3, w.items);
        ReadyAgrees(s', r', drain);
        assert t.log + [] == t.log;
      }
    }
  }

  lemma {:induction false} ServeAgrees(env: Env, t: Trace, u: Trace, turn: Turn)
    requires Inv(env, t) && ValidTurn(turn) && Agree(t.s, u.s) && t.log == u.log
    ensures var (x, y) := (Serve(env, t, turn), ServeByQueue(env, u, turn));
            && Inv(env, x) && Agree(x.s, y.s) && x.log == y.log
            && (t.s == u.s && Unamplified([turn]) ==> x.s == y.s)
  {
    match turn {
      case Arrive(a, drain) =>
        ArriveAgrees(env, t, u, a, drain);
        assert Unamplified([turn]) ==> Amplification([turn][0].arrival.policy.plan) == 1;
        ReceiveKeeps(env, t, a.now, a.payload, a.policy);
        DrainKeeps(env, Exec(env, t, Receive(a.now, a.payload, a.policy)), drain);
      case Timer(now) =>
        ReadyAgrees(t.s, u.s, now);
        DrainKeeps(env, t, now);
    }
  }

  /** For every run that drains after each admission, at whatever later reading of the clock, and at any
      timers in between, under any validated and changing plans: the engine with the immediate paths hands
      over the same datagrams in the same order as the one that always enqueues, and ends in the same state
      up to lower high-water marks; with plans that never duplicate the states are equal outright. */
  lemma {:induction false} ImmediateRefinesQueue(env: Env, t: Trace, u: Trace, turns: seq<Turn>)
    requires Inv(env, t) && Agree(t.s, u.s) && t.log == u.log && ValidTurns(turns)
    ensures ServeAll(env, t, turns).log == ServeAllByQueue(env, u, turns).log
    ensures Agree(ServeAll(env, t, turns).s, ServeAllByQueue(env, u, turns).s)
    ensures t.s == u.s && Unamplified(turns) ==> ServeAll(env, t, turns).s == ServeAllByQueue(env, u, turns).s
    decreases |turns|
  {
    if turns != [] {
      ServeAgrees(env, t, u, turns[0]);
      ImmediateRefinesQueue(env, Serve(env, t, turns[0]), ServeByQueue(env, u, turns[0]), turns[1..]);
    }
  }
}
