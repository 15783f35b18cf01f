/**
  The leaf generators. Each one hands the source to a standard-library
  sampler whose algorithm is not part of this model. Of the integer and
  element samplers only their documented promise, a bounded pick, is kept
  (the type `Below`); the boolean sampler is a separate, unconstrained
  parameter, since nothing is documented about it beyond yielding a `bool`.
 */
module Leaves {
  import opened Rng
  import opened Generators

  datatype Option<T> = None | Some(value: T)

  /**
    An abstract bounded sampler: given the source and a bound `n > 0`, it
    returns some number in `[0, n)` and the advanced source. Uniformity and
    how many raw values it consumes are not modelled.
   */
  type Below = draw: (Lcrng, nat) -> (nat, Lcrng) | forall rng, n :: 0 < n ==> draw(rng, n).0 < n
    witness ModuloBelow

  /** One inhabitant of `Below`: a single source step reduced modulo the bound. */
  function ModuloBelow(rng: Lcrng, n: nat): (nat, Lcrng)
  {
    if n == 0 then (0, rng) else var (x, rng') := Next(rng); (x % n, rng')
  }

  /** An integer in the closed range `lo...hi`; forming the range demands `lo <= hi`. */
  function Int(draw: Below, lo: int, hi: int): (g: Gen<int>)
    requires lo <= hi
    ensures forall rng :: lo <= g(rng).0 <= hi
  {
    rng => var (k, rng') := draw(rng, hi - lo + 1); (lo + k, rng')
  }

  /**
    `Gen.bool`: the standard library's own coin, which draws from the source
    independently of `Below` and promises nothing further.
   */
  function Bool(flip: Lcrng -> (bool, Lcrng)): Gen<bool>
  {
    flip
  }

  /**
    A member of `xs`, or `None` exactly when `xs` is empty; the empty case
    returns before any draw, so it leaves the source untouched.
   */
  function Element<A>(draw: Below, xs: seq<A>): (g: Gen<Option<A>>)
    ensures forall rng :: g(rng).0.None? <==> |xs| == 0
    ensures forall rng :: g(rng).0.Some? ==> g(rng).0.value in xs
    ensures |xs| == 0 ==> forall rng :: g(rng).1 == rng
  {
    rng =>
      if |xs| == 0 then (None, rng)
      else var (k, rng') := draw(rng, |xs|); (Some(xs[k]), rng')
  }
}
