/**
  The generator abstraction. A generator is a pure state transformer: given
  the random source's state it yields one value and the state the source is
  left in. Running a generator against a mutable source in place is the
  same as applying it and storing the returned state back.
 */
module Generators {
  import opened Rng

  type Gen<A> = Lcrng -> (A, Lcrng)

  /** Two generators behave alike: same value and same leftover state from every source state. */
  ghost predicate Same<A>(g1: Gen<A>, g2: Gen<A>)
  {
    forall rng :: g1(rng) == g2(rng)
  }

  /** Runs `g`, then applies `f` to its value; the source is left where `g` left it. */
  function Map<A, B>(g: Gen<A>, f: A -> B): Gen<B>
  {
    rng => var (a, rng') := g(rng); (f(a), rng')
  }

  /** Runs `g`, picks the next generator from its value, and runs that on the advanced source. */
  function FlatMap<A, B>(g: Gen<A>, f: A -> Gen<B>): Gen<B>
  {
    rng => var (a, rng') := g(rng); f(a)(rng')
  }

  /** The constant generator. */
  function Always<A>(a: A): Gen<A>
  {
    rng => (a, rng)
  }

  /** `Always(a)` yields `a` and consumes nothing from the source. */
  lemma AlwaysConsumesNothing<A>(a: A, rng: Lcrng)
    ensures Always(a)(rng).0 == a
    ensures Always(a)(rng).1 == rng
  {
  }

  /** Mapping yields `f` of `g`'s value and leaves exactly `g`'s final state. */
  lemma MapRunsOnce<A, B>(g: Gen<A>, f: A -> B, rng: Lcrng)
    ensures Map(g, f)(rng).0 == f(g(rng).0)
    ensures Map(g, f)(rng).1 == g(rng).1
  {
  }

  /** Functor identity: mapping the identity changes nothing. */
  lemma MapIdentity<A>(g: Gen<A>)
    ensures Same(Map(g, a => a), g)
  {
  }

  /** Functor composition: two maps fuse into one map of the composite. */
  lemma MapFusion<A, B, C>(g: Gen<A>, f: A -> B, h: B -> C)
    ensures Same(Map(Map(g, f), h), Map(g, a => h(f(a))))
  {
  }

  /** Mapping is binding followed by a generator that consumes nothing. */
  lemma MapIsFlatMapAlways<A, B>(g: Gen<A>, f: A -> B)
    ensures Same(Map(g, f), FlatMap(g, a => Always(f(a))))
  {
    forall rng ensures Map(g, f)(rng) == FlatMap(g, a => Always(f(a)))(rng) {
      var (a, rng') := g(rng);
      assert FlatMap(g, a => Always(f(a)))(rng) == Always(f(a))(rng');
    }
  }

  /** `FlatMap` consumes for `g` first and for the chosen generator second, on the advanced state. */
  lemma FlatMapSequences<A, B>(g: Gen<A>, f: A -> Gen<B>, rng: Lcrng)
    ensures FlatMap(g, f)(rng) == f(g(rng).0)(g(rng).1)
  {
  }

  /** Monad left identity. */
  lemma FlatMapLeftIdentity<A, B>(a: A, f: A -> Gen<B>)
    ensures Same(FlatMap(Always(a), f), f(a))
  {
  }

  /** Monad right identity. */
  lemma FlatMapRightIdentity<A>(g: Gen<A>)
    ensures Same(FlatMap(g, a => Always(a)), g)
  {
  }

  /** Monad associativity. */
  lemma FlatMapAssociative<A, B, C>(g: Gen<A>, f: A -> Gen<B>, h: B -> Gen<C>)
    ensures Same(FlatMap(FlatMap(g, f), h), FlatMap(g, a => FlatMap(f(a), h)))
  {
    forall rng
      ensures FlatMap(FlatMap(g, f), h)(rng) == FlatMap(g, a => FlatMap(f(a), h))(rng)
    {
      var (a, rng') := g(rng);
      assert FlatMap(g, a => FlatMap(f(a), h))(rng) == FlatMap(f(a), h)(rng');
      assert FlatMap(g, f)(rng) == f(a)(rng');
    }
  }
}
