/**
  The zip family: run several generators on one source, strictly in the
  order they are given, and combine their values.
 */
module Zips {
  import opened Rng
  import opened Generators

  /** Runs `ga` and then `gb` on the state `ga` left, pairing the values. */
  function Zip<A, B>(ga: Gen<A>, gb: Gen<B>): Gen<(A, B)>
  {
    rng =>
      var (a, r1) := ga(rng);
      var (b, r2) := gb(r1);
      ((a, b), r2)
  }

  /** `zip(with: f)`: the pair generator followed by `f`. */
  function ZipWith<A, B, C>(f: (A, B) -> C, ga: Gen<A>, gb: Gen<B>): Gen<C>
  {
    Map(Zip(ga, gb), (p: (A, B)) => f(p.0, p.1))
  }

  function Zip3<A, B, C, Z>(f: (A, B, C) -> Z, ga: Gen<A>, gb: Gen<B>, gc: Gen<C>): Gen<Z>
  {
    rng =>
      var (a, r1) := ga(rng);
      var (b, r2) := gb(r1);
      var (c, r3) := gc(r2);
      (f(a, b, c), r3)
  }

  function Zip4<A, B, C, D, Z>(f: (A, B, C, D) -> Z,
                               ga: Gen<A>, gb: Gen<B>, gc: Gen<C>, gd: Gen<D>): Gen<Z>
  {
    rng =>
      var (a, r1) := ga(rng);
      var (b, r2) := gb(r1);
      var (c, r3) := gc(r2);
      var (d, r4) := gd(r3);
      (f(a, b, c, d), r4)
  }

  function Zip9<A, B, C, D, E, F, G, H, I, Z>(
    fn: (A, B, C, D, E, F, G, H, I) -> Z,
    ga: Gen<A>, gb: Gen<B>, gc: Gen<C>, gd: Gen<D>, ge: Gen<E>,
    gf: Gen<F>, gg: Gen<G>, gh: Gen<H>, gi: Gen<I>): Gen<Z>
  {
    rng =>
      var (a, r1) := ga(rng);
      var (b, r2) := gb(r1);
      var (c, r3) := gc(r2);
      var (d, r4) := gd(r3);
      var (e, r5) := ge(r4);
      var (f, r6) := gf(r5);
      var (g, r7) := gg(r6);
      var (h, r8) := gh(r7);
      var (i, r9) := gi(r8);
      (fn(a, b, c, d, e, f, g, h, i), r9)
  }

  /** Zipping is sequencing: bind `ga`, then run `gb` and pair. */
  lemma ZipIsFlatMap<A, B>(ga: Gen<A>, gb: Gen<B>)
    ensures Same(Zip(ga, gb), FlatMap(ga, a => Map(gb, b => (a, b))))
  {
    forall rng ensures Zip(ga, gb)(rng) == FlatMap(ga, a => Map(gb, b => (a, b)))(rng) {
      var (a, r1) := ga(rng);
      assert FlatMap(ga, a => Map(gb, b => (a, b)))(rng) == Map(gb, b => (a, b))(r1);
    }
  }

  /**
    The source ends where running `ga` and then `gb` back to back leaves
    it, and each value is what that generator yields on its turn.
   */
  lemma ZipConsumesInOrder<A, B>(ga: Gen<A>, gb: Gen<B>, rng: Lcrng)
    ensures Zip(ga, gb)(rng).0.0 == ga(rng).0
    ensures Zip(ga, gb)(rng).0.1 == gb(ga(rng).1).0
    ensures Zip(ga, gb)(rng).1 == gb(ga(rng).1).1
  {
  }

  /** `ZipWith` runs `ga` then `gb` and combines their values with `f`. */
  lemma ZipWithIsSequencing<A, B, C>(f: (A, B) -> C, ga: Gen<A>, gb: Gen<B>)
    ensures Same(ZipWith(f, ga, gb), FlatMap(ga, a => Map(gb, b => f(a, b))))
  {
    forall rng ensures ZipWith(f, ga, gb)(rng) == FlatMap(ga, a => Map(gb, b => f(a, b)))(rng) {
      var (a, r1) := ga(rng);
      assert FlatMap(ga, a => Map(gb, b => f(a, b)))(rng) == Map(gb, b => f(a, b))(r1);
    }
  }

  /** `Zip3` is two nested pairwise zips followed by one map. */
  lemma Zip3IsNestedZip<A, B, C, Z>(f: (A, B, C) -> Z, ga: Gen<A>, gb: Gen<B>, gc: Gen<C>)
    ensures Same(Zip3(f, ga, gb, gc),
                 Map(Zip(Zip(ga, gb), gc), (t: ((A, B), C)) => f(t.0.0, t.0.1, t.1)))
  {
  }

  /** `Zip4` is three nested pairwise zips followed by one map. */
  lemma Zip4IsNestedZip<A, B, C, D, Z>(f: (A, B, C, D) -> Z,
                                       ga: Gen<A>, gb: Gen<B>, gc: Gen<C>, gd: Gen<D>)
    ensures Same(Zip4(f, ga, gb, gc, gd),
                 Map(Zip(Zip(Zip(ga, gb), gc), gd),
                     (t: (((A, B), C), D)) => f(t.0.0.0, t.0.0.1, t.0.1, t.1)))
  {
  }

  /** `Zip9` is eight nested pairwise zips followed by one map. */
  lemma Zip9IsNestedZip<A, B, C, D, E, F, G, H, I, Z>(
    fn: (A, B, C, D, E, F, G, H, I) -> Z,
    ga: Gen<A>, gb: Gen<B>, gc: Gen<C>, gd: Gen<D>, ge: Gen<E>,
    gf: Gen<F>, gg: Gen<G>, gh: Gen<H>, gi: Gen<I>)
    ensures Same(Zip9(fn, ga, gb, gc, gd, ge, gf, gg, gh, gi),
                 Map(Zip(Zip(Zip(Zip(Zip(Zip(Zip(Zip(ga, gb), gc), gd), ge), gf), gg), gh), gi),
                     (t: ((((((((A, B), C), D), E), F), G), H), I)) =>
                       fn(t.0.0.0.0.0.0.0.0, t.0.0.0.0.0.0.0.1, t.0.0.0.0.0.0.1, t.0.0.0.0.0.1,
                          t.0.0.0.0.1, t.0.0.0.1, t.0.0.1, t.0.1, t.1)))
  {
  }
}
