/** Shared vocabulary: options, small arithmetic, and the connection-local random stream. */
module Common {

  /** An octet, as its bits. */
  type Byte = b: seq<bool> | |b| == 8 witness [false, false, false, false, false, false, false, false]
  type pos = n: nat | 0 < n witness 1

  datatype Option<+T> = None | Some(value: T)

  const U64_MAX: nat := 0xFFFF_FFFF_FFFF_FFFF

  function Min(a: int, b: int): int { if a <= b then a else b }

  function Max(a: int, b: int): int { if a <= b then b else a }

  /** Saturating subtraction. */
  function Minus(a: nat, b: nat): nat { if b <= a then a - b else 0 }

  /** Saturating u64 addition. */
  function PlusU64(a: nat, b: nat): nat { Min(a + b, U64_MAX) }

  /** A deterministic random stream: a state, and the step that yields a value and the next
      state. The step is a parameter of every result below, so nothing proved in this project
      depends on which values the generator produces. */
  datatype Rng = Rng(step: nat -> (nat, nat), state: nat) {

    function Next(): (nat, Rng) {
      var (v, s) := step(state);
      (v, this.(state := s))
    }

    /** A value below `upper`, or zero for an empty range; always advances the stream. */
    function Below(upper: nat): (r: (nat, Rng))
      ensures if upper == 0 then r.0 == 0 else r.0 < upper
    {
      var (v, g) := Next();
      (if upper == 0 then 0 else v % upper, g)
    }

    /** A certain outcome does not advance the stream; an uncertain one advances it once. */
    function Bernoulli(p: real): (bool, Rng) {
      if p <= 0.0 then (false, this)
      else if p >= 1.0 then (true, this)
      else
        var (v, g) := Next();
        (v < (p * 18446744073709551616.0).Floor, g)
    }
  }
}
