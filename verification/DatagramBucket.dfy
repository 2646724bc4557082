/** The virtual-clock token bucket of the datagram bandwidth stage. */
module DatagramBucket {
  import opened Common

  const NANOS: nat := 1_000_000_000
  /** Hard bound on one datagram, enforced by the validated queue limits. */
  const MAX_DATAGRAM: nat := 65_535

  datatype Bucket = Bucket(tokens: nat, updated: nat)

  function FloorDiv(a: nat, b: pos): nat { a / b }

  function CeilDiv(a: nat, b: pos): nat { (a + b - 1) / b }

  /** Nanoseconds needed to earn `deficit` bytes, clamped to the 64-bit range. */
  function Service(deficit: nat, rate: pos): nat {
    Min(CeilDiv(deficit * NANOS, rate), U64_MAX)
  }

  /** Charge `bytes` to the bucket at `now`. Returns the bucket and the added delay. The first
      charge finds no bucket and starts a full one. */
  function Charge(entry: Option<Bucket>, now: nat, bytes: nat, rate: pos, burst: pos): (r: (Bucket, nat))
    ensures r.0.updated == now + r.1 && r.0.tokens <= burst
    ensures entry.Some? ==> entry.value.updated <= r.0.updated
    ensures r.0.tokens > 0 ==> r.0.updated == if entry.Some? then Max(now, entry.value.updated) else now
  {
    var b := if entry.Some? then entry.value else Bucket(burst, now);
    var virtualNow := Max(now, b.updated);
    var refill := Min(FloorDiv((virtualNow - b.updated) * rate, NANOS), U64_MAX);
    var tokens := Min(b.tokens + refill, burst);
    if tokens >= bytes then
      (Bucket(tokens - bytes, virtualNow), virtualNow - now)
    else
      var service := Service(bytes - tokens, rate);
      (Bucket(0, virtualNow + service), virtualNow - now + service)
  }

  datatype Request = Request(now: nat, bytes: nat)

  /** The bucket after the first k requests. */
  function After(reqs: seq<Request>, k: nat, rate: pos, burst: pos): Option<Bucket>
    requires k <= |reqs|
  {
    if k == 0 then None
    else Some(Charge(After(reqs, k - 1, rate, burst), reqs[k - 1].now, reqs[k - 1].bytes, rate, burst).0)
  }

  /** Bucket release time of request i: its arrival plus the delay it was given. */
  function Release(reqs: seq<Request>, i: nat, rate: pos, burst: pos): nat
    requires i < |reqs|
  {
    reqs[i].now + Charge(After(reqs, i, rate, burst), reqs[i].now, reqs[i].bytes, rate, burst).1
  }

  /** Time from the release of request i to that of request j. */
  function Elapsed(reqs: seq<Request>, i: nat, j: nat, rate: pos, burst: pos): int
    requires i < |reqs| && j < |reqs|
  {
    Release(reqs, j, rate, burst) - Release(reqs, i, rate, burst)
  }

  /** Bytes of requests i..j inclusive. */
  function Volume(reqs: seq<Request>, i: nat, j: nat): nat
    requires i <= j < |reqs|
  {
    if i == j then reqs[j].bytes else Volume(reqs, i, j - 1) + reqs[j].bytes
  }

  lemma {:induction false} FloorBound(a: nat, b: pos)
    ensures FloorDiv(a, b) * b <= a
  {
  }

  lemma {:induction false} CeilBound(a: nat, b: pos)
    ensures CeilDiv(a, b) * b >= a
  {
    var x := a + b - 1;
    assert x == (x / b) * b + x % b;
  }

  lemma {:induction false} Cancel(q: nat, a: nat, b: pos)
    ensures q * b <= a * b ==> q <= a
  {
    if q > a {
      assert q * b == a * b + (q - a) * b;
      assert (q - a) * b >= 1;
    }
  }

  lemma {:induction false} SumAtMostProduct(a: pos, b: pos)
    ensures a + b - 1 <= a * b
  {
    var x: nat, y: nat := a - 1, b - 1;
    assert a * b == (x + 1) * (y + 1) == x * y + x + y + 1;
    assert x * y >= 0;
  }

  lemma {:induction false} CeilAtMost(a: nat, b: pos)
    ensures CeilDiv(a, b) <= a
  {
    FloorBound(a + b - 1, b);
    if a == 0 {
      Cancel(CeilDiv(a, b), 0, b);
    } else {
      SumAtMostProduct(a, b);
      Cancel(CeilDiv(a, b), a, b);
    }
  }

  lemma {:induction false} ServiceBound(deficit: nat, rate: pos)
    requires deficit <= MAX_DATAGRAM
    ensures Service(deficit, rate) * rate >= deficit * NANOS
  {
    var a := deficit * NANOS;
    CeilBound(a, rate);
    CeilAtMost(a, rate);
  }

  /** One charge never releases earlier than the previous release, and spends no more than the
      tokens on hand plus what the rate earns between the two releases. */
  lemma {:induction false} ChargeBound(b: Bucket, now: nat, bytes: nat, rate: pos, burst: pos)
    requires bytes <= MAX_DATAGRAM
    ensures var c := Charge(Some(b), now, bytes, rate, burst).0;
            && b.updated <= c.updated
            && (bytes + c.tokens) * NANOS <= b.tokens * NANOS + rate * (c.updated - b.updated)
  {
    var v := Max(now, b.updated);
    var e := v - b.updated;
    var refill := FloorDiv(e * rate, NANOS);
    FloorBound(e * rate, NANOS);
    var tokens := Min(b.tokens + Min(refill, U64_MAX), burst);
    assert tokens * NANOS <= b.tokens * NANOS + e * rate;
    if tokens < bytes {
      ServiceBound(bytes - tokens, rate);
      var s := Service(bytes - tokens, rate);
      assert rate * (e + s) == e * rate + s * rate;
    }
  }

  lemma {:induction false} FirstCharge(entry: Option<Bucket>, now: nat, bytes: nat, rate: pos, burst: pos)
    ensures bytes + Charge(entry, now, bytes, rate, burst).0.tokens <= Max(burst, bytes)
  {
  }

  lemma {:induction false} Chain(rate: pos, a: nat, b: nat, c: nat)
    ensures rate * (c - a) == rate * (b - a) + rate * (c - b)
  {
  }

  lemma {:induction false} VolumeBound(reqs: seq<Request>, i: nat, j: nat, rate: pos, burst: pos)
    requires i <= j < |reqs|
    requires forall k :: 0 <= k < |reqs| ==> reqs[k].bytes <= MAX_DATAGRAM
    ensures Release(reqs, i, rate, burst) <= Release(reqs, j, rate, burst)
    ensures (Volume(reqs, i, j) + After(reqs, j + 1, rate, burst).value.tokens) * NANOS
              <= Max(burst, reqs[i].bytes) * NANOS + rate * Elapsed(reqs, i, j, rate, burst)
  {
    if i == j {
      FirstCharge(After(reqs, i, rate, burst), reqs[i].now, reqs[i].bytes, rate, burst);
    } else {
      VolumeBound(reqs, i, j - 1, rate, burst);
      var b := After(reqs, j, rate, burst).value;
      ChargeBound(b, reqs[j].now, reqs[j].bytes, rate, burst);
      Chain(rate, Release(reqs, i, rate, burst), b.updated, Release(reqs, j, rate, burst));
    }
  }

  /** Bandwidth conformance for every window of requests, whatever the arrival times: release
      times never decrease, and the bytes of datagrams i..j are at most one allowance (the burst,
      or datagram i alone when it exceeds the burst) plus what the rate earns between their
      releases. */
  lemma {:induction false} BandwidthConformance(reqs: seq<Request>, i: nat, j: nat, rate: pos, burst: pos)
    requires i <= j < |reqs|
    requires forall k :: 0 <= k < |reqs| ==> reqs[k].bytes <= MAX_DATAGRAM
    ensures Release(reqs, i, rate, burst) <= Release(reqs, j, rate, burst)
    ensures Volume(reqs, i, j) * NANOS
              <= Max(burst, reqs[i].bytes) * NANOS + rate * Elapsed(reqs, i, j, rate, burst)
  {
    VolumeBound(reqs, i, j, rate, burst);
  }

  // --- No longer than needed ---

  /** What the bucket holds after `elapsed`: all the rate has earned, in whole bytes, up to the burst. */
  ghost predicate Refilled(tokens: nat, elapsed: nat, rate: pos, burst: pos, have: nat) {
    && have <= burst
    && (have - tokens) * NANOS <= elapsed * rate
    && (have < burst ==> (have + 1 - tokens) * NANOS > elapsed * rate)
  }

  /** The shortest time in which the rate earns the deficit. */
  ghost predicate ShortestService(deficit: nat, rate: pos, service: nat) {
    service * rate >= deficit * NANOS && (service > 0 ==> (service - 1) * rate < deficit * NANOS)
  }

  lemma {:induction false} FloorTight(a: nat, b: pos)
    ensures a < (FloorDiv(a, b) + 1) * b
  {
    assert a == a / b * b + a % b;
    assert (a / b + 1) * b == a / b * b + b;
  }

  lemma {:induction false} ServiceShortest(deficit: nat, rate: pos)
    requires deficit <= MAX_DATAGRAM
    ensures ShortestService(deficit, rate, Service(deficit, rate))
  {
    var a := deficit * NANOS;
    var s := Service(deficit, rate);
    ServiceBound(deficit, rate);
    CeilAtMost(a, rate);
    FloorBound(a + rate - 1, rate);
    if s > 0 {
      assert (s - 1) * rate == s * rate - rate;
    }
  }

  lemma {:induction false} RefilledBy(tokens: nat, elapsed: nat, rate: pos, burst: pos)
    requires burst <= U64_MAX
    ensures Refilled(tokens, elapsed, rate, burst,
                     Min(tokens + Min(FloorDiv(elapsed * rate, NANOS), U64_MAX), burst))
  {
    FloorBound(elapsed * rate, NANOS);
    FloorTight(elapsed * rate, NANOS);
  }

  /** A charge waits for earlier releases and then not at all if the refilled bucket can pay; otherwise it
      waits exactly until the rate has earned what is missing, and leaves the bucket empty. */
  lemma {:induction false} ChargeTight(entry: Option<Bucket>, now: nat, bytes: nat, rate: pos, burst: pos)
      returns (have: nat)
    requires bytes <= MAX_DATAGRAM && burst <= U64_MAX
    ensures var (after, delay) := Charge(entry, now, bytes, rate, burst);
            var start := if entry.Some? then Max(now, entry.value.updated) else now;
            && (if entry.None? then have == burst
                else Refilled(entry.value.tokens, start - entry.value.updated, rate, burst, have))
            && after.updated == now + delay
            && (if bytes <= have then after == Bucket(have - bytes, start)
                else after.tokens == 0 && start <= after.updated
                     && ShortestService(bytes - have, rate, after.updated - start))
  {
    var b := if entry.Some? then entry.value else Bucket(burst, now);
    var elapsed := Max(now, b.updated) - b.updated;
    have := Min(b.tokens + Min(FloorDiv(elapsed * rate, NANOS), U64_MAX), burst);
    RefilledBy(b.tokens, elapsed, rate, burst);
    if have < bytes {
      ServiceShortest(bytes - have, rate);
    }
  }
}
