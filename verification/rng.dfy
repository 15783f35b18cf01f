/**
  The reproducible random source: a 64-bit linear congruential generator.
  Its whole state is one unsigned 64-bit seed; every call to `Next` replaces
  the seed by `Multiplier * seed + Increment` with 64-bit wrap-around and
  hands the new seed back as the random value.
 */
module Rng {

  const Multiplier: nat := 2862933555777941757
  const Increment: nat := 3037000493
  /** 2^64: unsigned 64-bit arithmetic wraps modulo this. */
  const Modulus: nat := 0x1_0000_0000_0000_0000

  type U64 = x: int | 0 <= x < Modulus

  /** The generator's state. The model has exactly one kind of random source. */
  datatype Lcrng = Lcrng(seed: U64)

  /** One step of the generator: the wrapping affine update, returning the new state as the value. */
  function Next(rng: Lcrng): (res: (U64, Lcrng))
    ensures res.0 == res.1.seed
    ensures (res.1.seed - Multiplier * rng.seed - Increment) % Modulus == 0
  {
    var t := Multiplier * rng.seed + Increment;
    WrapIsCongruent(t);
    (t % Modulus, Lcrng(t % Modulus))
  }

  /** Reducing modulo 2^64 changes a number by a multiple of 2^64. */
  lemma WrapIsCongruent(t: int)
    ensures (t % Modulus - t) % Modulus == 0
  {
    var q := t / Modulus;
    assert t % Modulus - t == -q * Modulus;
  }

  /** The state after `n` calls to `Next`. */
  function StateAfter(rng: Lcrng, n: nat): Lcrng
  {
    if n == 0 then rng else Next(StateAfter(rng, n - 1)).1
  }

  /** The first `n` values the source hands out, in order. */
  function Outputs(rng: Lcrng, n: nat): (out: seq<U64>)
    ensures |out| == n
  {
    if n == 0 then [] else Outputs(rng, n - 1) + [Next(StateAfter(rng, n - 1)).0]
  }

  /** The i-th value handed out is the seed after i + 1 steps. */
  lemma {:induction false} OutputsElement(rng: Lcrng, n: nat, i: nat)
    requires i < n
    ensures Outputs(rng, n)[i] == StateAfter(rng, i + 1).seed
  {
    if i < n - 1 {
      OutputsElement(rng, n - 1, i);
    }
  }

  /** Stepping `m` times and then `n` times is stepping `m + n` times. */
  lemma {:induction false} StateAfterAdd(rng: Lcrng, m: nat, n: nat)
    ensures StateAfter(StateAfter(rng, m), n) == StateAfter(rng, m + n)
  {
    if n > 0 {
      StateAfterAdd(rng, m, n - 1);
    }
  }

  /**
    Drawing `m + n` values in one go yields the same values as drawing `m`
    and then continuing from the advanced state for `n` more: successive
    uses of one source continue a single stream.
   */
  lemma {:induction false} OutputsSplit(rng: Lcrng, m: nat, n: nat)
    ensures Outputs(rng, m + n) == Outputs(rng, m) + Outputs(StateAfter(rng, m), n)
  {
    if n > 0 {
      OutputsSplit(rng, m, n - 1);
      StateAfterAdd(rng, m, n - 1);
    }
  }

  /** The stream for seed 0, pinned value by value. */
  lemma SeedZeroStream()
    ensures Outputs(Lcrng(0), 3) == [3037000493, 7130919190303094438, 15808069148326827323]
  {
    assert StateAfter(Lcrng(0), 1).seed == 3037000493;
    assert StateAfter(Lcrng(0), 2).seed == 7130919190303094438;
  }
}
