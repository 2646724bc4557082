/** Payload corruption of one datagram candidate (datagram.rs, the payload-corrupt stage). */
module Corruption {
  import opened Common

  /** The octet with bit k inverted. */
  function Flip(b: Byte, k: nat): Byte
    requires k < 8
  {
    b[k := !b[k]]
  }

  /** The two bytes differ in exactly one bit. */
  ghost predicate OneBitApart(a: Byte, b: Byte) {
    exists k: nat | k < 8 :: b == Flip(a, k)
  }

  function Swap<T>(v: seq<T>, i: nat, j: nat): (w: seq<T>)
    requires i < |v| && j < |v|
    ensures |w| == |v|
  {
    v[i := v[j]][j := v[i]]
  }

  /** Round i: swap a random later byte into position i, then flip one random bit of it. */
  function Round(v: seq<Byte>, i: nat, rng: Rng): (out: (seq<Byte>, Rng))
    requires i < |v|
    ensures |out.0| == |v|
  {
    var (d, g) := rng.Below(|v| - i);
    var w := Swap(v, i, i + d);
    var (k, h) := g.Below(8);
    (w[i := Flip(w[i], k)], h)
  }

  /** Rounds i..n, with the random stream threaded through. */
  function Corrupt(v: seq<Byte>, i: nat, n: nat, rng: Rng): (out: (seq<Byte>, Rng))
    requires i <= n <= |v|
    ensures |out.0| == |v|
    decreases n - i
  {
    if i == n then (v, rng)
    else
      var (w, g) := Round(v, i, rng);
      Corrupt(w, i + 1, n, g)
  }

  lemma {:induction false} SwapPermutes<T>(v: seq<T>, i: nat, j: nat)
    requires i < |v| && j < |v|
    ensures multiset(Swap(v, i, j)) == multiset(v)
  {
    var u := v[i := v[j]];
    assert multiset(u) == multiset(v) - multiset{v[i]} + multiset{v[j]};
    assert multiset(u[j := v[i]]) == multiset(u) - multiset{u[j]} + multiset{v[i]};
  }

  /** One round is a permutation `w` of its input with one bit of position i flipped. */
  lemma {:induction false} RoundShape(v: seq<Byte>, i: nat, rng: Rng) returns (w: seq<Byte>)
    requires i < |v|
    ensures |w| == |v| && multiset(w) == multiset(v) && w[..i] == v[..i]
    ensures OneBitApart(w[i], Round(v, i, rng).0[i])
    ensures Round(v, i, rng).0 == w[i := Round(v, i, rng).0[i]]
  {
    var (d, g) := rng.Below(|v| - i);
    w := Swap(v, i, i + d);
    SwapPermutes(v, i, i + d);
    var (k, h) := g.Below(8);
  }

  /** Undoing the change at position i turns a permutation of `w[i := b]` into one of `w`. */
  lemma {:induction false} Unchange<T>(w: seq<T>, i: nat, b: T, q: seq<T>) returns (p: seq<T>)
    requires i < |w| == |q|
    requires multiset(q) == multiset(w[i := b]) && q[..i + 1] == w[i := b][..i + 1]
    ensures p == q[i := w[i]] && multiset(p) == multiset(w) && p[..i] == w[..i]
  {
    assert q[i] == q[..i + 1][i] == b;
    p := q[i := w[i]];
    assert multiset(w[i := b]) == multiset(w) - multiset{w[i]} + multiset{b};
    assert multiset(p) == multiset(q) - multiset{b} + multiset{w[i]};
    forall m | 0 <= m < i ensures p[m] == w[m] {
      assert q[m] == q[..i + 1][m];
    }
  }

  /** `out` is `p` with one bit flipped in exactly the positions i..n. */
  ghost predicate FlippedBetween(p: seq<Byte>, out: seq<Byte>, i: nat, n: nat) {
    && |p| == |out|
    && (forall k :: 0 <= k < |p| && !(i <= k < n) ==> out[k] == p[k])
    && (forall k :: i <= k < n && k < |p| ==> OneBitApart(p[k], out[k]))
  }

  /** Rounds i..n give a permutation of `v` with one bit flipped in exactly the positions i..n. */
  lemma {:induction false} CorruptShape(v: seq<Byte>, i: nat, n: nat, rng: Rng) returns (p: seq<Byte>)
    requires i <= n <= |v|
    ensures multiset(p) == multiset(v) && |p| == |v| && p[..i] == v[..i]
    ensures FlippedBetween(p, Corrupt(v, i, n, rng).0, i, n)
    decreases n - i
  {
    if i == n {
      p := v;
    } else {
      var w := RoundShape(v, i, rng);
      var (x, g) := Round(v, i, rng);
      var q := CorruptShape(x, i + 1, n, g);
      p := Unchange(w, i, x[i], q);
      assert q[i] == q[..i + 1][i] == x[i];
    }
  }

  // --- Bit parity: an odd number of flips is never the identity ---

  /** Whether an odd number of elements of `v` is odd. */
  predicate Parity<T>(v: seq<T>, odd: T -> bool) {
    if v == [] then false else odd(v[0]) != Parity(v[1..], odd)
  }

  lemma {:induction false} UpdateParity<T>(v: seq<T>, odd: T -> bool, i: nat, b: T)
    requires i < |v|
    ensures Parity(v[i := b], odd) == ((Parity(v, odd) != odd(v[i])) != odd(b))
  {
    if i == 0 {
      assert v[0 := b][1..] == v[1..];
    } else {
      assert v[i := b][1..] == v[1..][i - 1 := b];
      UpdateParity(v[1..], odd, i - 1, b);
    }
  }

  /** Whether an odd number of bits is set. */
  predicate Odd(b: Byte) { Parity(b, (x: bool) => x) }

  lemma {:induction false} FlipToggles(b: Byte, k: nat)
    requires k < 8
    ensures Odd(Flip(b, k)) != Odd(b)
  {
    UpdateParity(b, (x: bool) => x, k, !b[k]);
  }

  lemma {:induction false} SwapParity<T>(v: seq<T>, odd: T -> bool, i: nat, j: nat)
    requires i < |v| && j < |v|
    ensures Parity(Swap(v, i, j), odd) == Parity(v, odd)
  {
    UpdateParity(v, odd, i, v[j]);
    UpdateParity(v[i := v[j]], odd, j, v[i]);
  }

  lemma {:induction false} RoundParity(v: seq<Byte>, i: nat, rng: Rng)
    requires i < |v|
    ensures Parity(Round(v, i, rng).0, Odd) != Parity(v, Odd)
  {
    var (d, g) := rng.Below(|v| - i);
    var (k, h) := g.Below(8);
    SwapFlipParity(v, i, i + d, k);
  }

  lemma {:induction false} SwapFlipParity(v: seq<Byte>, i: nat, j: nat, k: nat)
    requires i < |v| && j < |v| && k < 8
    ensures var w := Swap(v, i, j); Parity(w[i := Flip(w[i], k)], Odd) != Parity(v, Odd)
  {
    var w := Swap(v, i, j);
    SwapParity(v, Odd, i, j);
    UpdateParity(w, Odd, i, Flip(w[i], k));
    FlipToggles(w[i], k);
  }

  lemma {:induction false} CorruptParity(v: seq<Byte>, i: nat, n: nat, rng: Rng)
    requires i <= n <= |v|
    ensures Parity(Corrupt(v, i, n, rng).0, Odd) == (Parity(v, Odd) != OddNumber(n - i))
    decreases n - i
  {
    if i != n {
      RoundParity(v, i, rng);
      var (w, g) := Round(v, i, rng);
      CorruptParity(w, i + 1, n, g);
    }
  }

  predicate OddNumber(n: nat) { if n == 0 then false else !OddNumber(n - 1) }

  lemma {:induction false} OddNumberIsOdd(n: nat)
    ensures OddNumber(n) <==> n % 2 == 1
  {
    if n > 0 {
      OddNumberIsOdd(n - 1);
    }
  }

  /** Flipping an odd number of bytes always changes the payload, whatever was shuffled. */
  lemma {:induction false} OddFlipsChangePayload(v: seq<Byte>, n: nat, rng: Rng)
    requires n <= |v| && n % 2 == 1
    ensures Corrupt(v, 0, n, rng).0 != v
  {
    CorruptParity(v, 0, n, rng);
    OddNumberIsOdd(n);
  }

  /** Draws 1, 0, 0, 0, over and over. */
  const PAIR_SWAPS: Rng := Rng((s: nat) => (if s == 0 then 1 else 0, if s == 3 then 0 else s + 1), 0)

  const ZERO: Byte := [false, false, false, false, false, false, false, false]
  const ONE: Byte := [true, false, false, false, false, false, false, false]

  /** The first round swaps the pair and flips its first byte. */
  lemma {:induction false} FirstOfPair(v: seq<Byte>, i: nat)
    requires i + 2 <= |v| && v[i] == ZERO && v[i + 1] == ONE
    ensures Round(v, i, PAIR_SWAPS) == (v[i + 1 := ZERO], PAIR_SWAPS.(state := 2))
  {
    var (d, g) := PAIR_SWAPS.Below(|v| - i);
    assert d == 1 && g == PAIR_SWAPS.(state := 1);
    assert Swap(v, i, i + 1) == v[i := ONE][i + 1 := ZERO];
    assert g.Below(8) == (0, PAIR_SWAPS.(state := 2));
    assert Flip(ONE, 0) == ZERO;
    assert v[i := ONE][i + 1 := ZERO][i := ZERO] == v[i + 1 := ZERO];
  }

  /** The second round leaves the second byte in place and flips it. */
  lemma {:induction false} SecondOfPair(v: seq<Byte>, i: nat)
    requires i < |v| && v[i] == ZERO
    ensures Round(v, i, PAIR_SWAPS.(state := 2)) == (v[i := ONE], PAIR_SWAPS)
  {
    var (d, g) := PAIR_SWAPS.(state := 2).Below(|v| - i);
    assert d == 0 && g == PAIR_SWAPS.(state := 3);
    assert Swap(v, i, i) == v;
    assert g.Below(8) == (0, PAIR_SWAPS);
    assert Flip(ZERO, 0) == ONE;
  }

  /** Two rounds under these draws swap the pair, flip both of its bytes, and so restore it. */
  lemma {:induction false} PairRestored(v: seq<Byte>, i: nat)
    requires i + 2 <= |v| && v[i] == ZERO && v[i + 1] == ONE
    ensures var (w, g) := Round(v, i, PAIR_SWAPS); Round(w, i + 1, g) == (v, PAIR_SWAPS)
  {
    FirstOfPair(v, i);
    SecondOfPair(v[i + 1 := ZERO], i + 1);
    assert v[i + 1 := ZERO][i + 1 := ONE] == v;
  }

  /** From position i to n, bytes alternate between zero and one. */
  ghost predicate Alternates(v: seq<Byte>, i: nat, n: nat)
    requires n <= |v|
    decreases n - i
  {
    i + 1 < n ==> v[i] == ZERO && v[i + 1] == ONE && Alternates(v, i + 2, n)
  }

  lemma {:induction false} PairsRestored(v: seq<Byte>, i: nat, n: nat)
    requires i <= n <= |v| && !OddNumber(n - i) && Alternates(v, i, n)
    ensures Corrupt(v, i, n, PAIR_SWAPS).0 == v
    decreases n - i
  {
    if i < n {
      PairRestored(v, i);
      PairsRestored(v, i + 2, n);
    }
  }

  function Alternating(len: nat): (v: seq<Byte>)
    ensures |v| == len
  {
    if len == 0 then [] else if len == 1 then [ZERO] else [ZERO, ONE] + Alternating(len - 2)
  }

  lemma {:induction false} AlternatingSuffix(prefix: seq<Byte>, len: nat, n: nat)
    requires n <= |prefix| + len
    ensures Alternates(prefix + Alternating(len), |prefix|, n)
    decreases len
  {
    if len >= 2 {
      AlternatingSuffix(prefix + [ZERO, ONE], len - 2, n);
      assert prefix + [ZERO, ONE] + Alternating(len - 2) == prefix + Alternating(len);
    }
  }

  /** An even number of flips may cancel, whatever the number and the length of the payload. */
  lemma {:induction false} EvenFlipsMayRestore(n: nat, len: nat)
    requires n <= len && n % 2 == 0
    ensures |Alternating(len)| == len && Corrupt(Alternating(len), 0, n, PAIR_SWAPS).0 == Alternating(len)
  {
    OddNumberIsOdd(n);
    AlternatingSuffix([], len, n);
    assert [] + Alternating(len) == Alternating(len);
    PairsRestored(Alternating(len), 0, n);
  }

  /** Exactly when corruption is sure to be visible: n flips change every payload of a given length, for
      every random stream, if and only if n is odd. */
  lemma {:induction false} CorruptionVisibleIffOdd(n: nat, len: nat)
    requires n <= len
    ensures (forall v: seq<Byte>, rng: Rng | |v| == len :: Corrupt(v, 0, n, rng).0 != v) <==> n % 2 == 1
  {
    if n % 2 == 1 {
      forall v: seq<Byte>, rng: Rng | |v| == len ensures Corrupt(v, 0, n, rng).0 != v {
        OddFlipsChangePayload(v, n, rng);
      }
    } else {
      EvenFlipsMayRestore(n, len);
    }
  }

  method RoundInPlace(v: array<Byte>, i: nat, rng: Rng) returns (rest: Rng)
    requires i < v.Length
    modifies v
    ensures (v[..], rest) == Round(old(v[..]), i, rng)
  {
    var (d, g) := rng.Below(v.Length - i);
    v[i], v[i + d] := v[i + d], v[i];
    ghost var w := v[..];
    assert w == Swap(old(v[..]), i, i + d);
    var (k, h) := g.Below(8);
    v[i] := Flip(v[i], k);
    assert v[..] == w[i := Flip(w[i], k)];
    rest := h;
  }

  /** The stage's loop over a private copy of the payload. */
  method CorruptPayload(payload: seq<Byte>, count: nat, rng: Rng)
    returns (out: seq<Byte>, rest: Rng)
    ensures (out, rest) == Corrupt(payload, 0, Min(count, |payload|), rng)
    ensures exists p: seq<Byte> | multiset(p) == multiset(payload) ::
              FlippedBetween(p, out, 0, Min(count, |payload|))
  {
    var n := Min(count, |payload|);
    var v := new Byte[|payload|](j requires 0 <= j < |payload| => payload[j]);
    assert v[..] == payload;
    rest := rng;
    var i := 0;
    while i < n
      invariant 0 <= i <= n
      invariant Corrupt(v[..], i, n, rest) == Corrupt(payload, 0, n, rng)
    {
      rest := RoundInPlace(v, i, rest);
      i := i + 1;
    }
    out := v[..];
    ghost var p := CorruptShape(payload, 0, n, rng);
  }
}
