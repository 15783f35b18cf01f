/**
  The digit fold behind `exponential(digits:)`: draw between one and
  `digits` decimal digits, each in `1...9`, and read them as a number,
  most significant first.
 */
module Digits {
  import opened Rng
  import opened Generators
  import opened Leaves
  import opened Arrays

  function Pow10(k: nat): (p: nat)
    ensures p >= 1
  {
    if k == 0 then 1 else 10 * Pow10(k - 1)
  }

  /** Left fold from zero: each digit shifts the accumulator one decimal place. */
  function FoldDigits(ds: seq<int>): int
  {
    if |ds| == 0 then 0 else FoldDigits(ds[..|ds| - 1]) * 10 + ds[|ds| - 1]
  }

  predicate NonZeroDigit(d: int)
  {
    1 <= d <= 9
  }

  /** A numeral of `k >= 1` nonzero digits has exactly `k` decimal places. */
  lemma {:induction false} FoldDigitsBounds(ds: seq<int>)
    requires |ds| >= 1
    requires forall i :: 0 <= i < |ds| ==> NonZeroDigit(ds[i])
    ensures Pow10(|ds| - 1) <= FoldDigits(ds) < Pow10(|ds|)
  {
    if |ds| > 1 {
      FoldDigitsBounds(ds[..|ds| - 1]);
    }
  }

  lemma {:induction false} Pow10Monotone(j: nat, k: nat)
    requires j <= k
    ensures Pow10(j) <= Pow10(k)
  {
    if j < k {
      Pow10Monotone(j, k - 1);
    }
  }

  /** `exponential(digits:)`; forming the range `1...digits` demands `digits >= 1`. */
  function Exponential(draw: Below, digits: int): Gen<int>
    requires digits >= 1
  {
    Map(Array(Int(draw, 1, 9), Int(draw, 1, digits)), FoldDigits)
  }

  /** Between one and `digits` nonzero digits fold to a number in `[1, 10^digits)`. */
  lemma FoldDigitsRange(ds: seq<int>, digits: int)
    requires 1 <= |ds| <= digits
    requires forall i :: 0 <= i < |ds| ==> NonZeroDigit(ds[i])
    ensures 1 <= FoldDigits(ds) < Pow10(digits)
  {
    FoldDigitsBounds(ds);
    Pow10Monotone(|ds|, digits);
  }

  /** Folding an array of nonzero digits whose count is at most `digits` gives a number below 10^digits. */
  lemma {:induction false} FoldArrayRange(digit: Gen<int>, count: Gen<int>, digits: int, rng: Lcrng)
    requires forall r :: 1 <= count(r).0 <= digits
    requires forall r :: NonZeroDigit(digit(r).0)
    ensures 1 <= FoldDigits(Array(digit, count)(rng).0) < Pow10(digits)
  {
    ArrayAll(digit, count, NonZeroDigit, rng);
    FoldDigitsRange(Array(digit, count)(rng).0, digits);
  }

  /** Every sample is a positive number with at most `digits` decimal places. */
  lemma ExponentialRange(draw: Below, digits: int, rng: Lcrng)
    requires digits >= 1
    ensures 1 <= Exponential(draw, digits)(rng).0 < Pow10(digits)
  {
    FoldArrayRange(Int(draw, 1, 9), Int(draw, 1, digits), digits, rng);
  }
}
