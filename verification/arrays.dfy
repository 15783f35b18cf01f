/**
  `array(of:)`: sample a count, then run the element generator that many
  times in sequence and collect the values in sampling order. The counting
  loop runs over the closed range `1...count`, which cannot be formed for a
  count below one, so a count of at least one is demanded of the count
  generator for every source state.
 */
module Arrays {
  import opened Rng
  import opened Generators

  /** The source state after running `g` back to back `k` times. */
  function Advance<A>(g: Gen<A>, rng: Lcrng, k: nat): Lcrng
  {
    if k == 0 then rng else g(Advance(g, rng, k - 1)).1
  }

  /** Runs `g` exactly `n` times from `rng`, threading the state; values in sampling order. */
  function Repeat<A>(g: Gen<A>, n: nat, rng: Lcrng): (res: (seq<A>, Lcrng))
    ensures |res.0| == n
  {
    if n == 0 then ([], rng)
    else
      var (a, r1) := g(rng);
      var (rest, r2) := Repeat(g, n - 1, r1);
      ([a] + rest, r2)
  }

  /** Advancing once and then `k` times is advancing `k + 1` times. */
  lemma {:induction false} AdvanceFirst<A>(g: Gen<A>, rng: Lcrng, k: nat)
    ensures Advance(g, g(rng).1, k) == Advance(g, rng, k + 1)
  {
    if k > 0 {
      AdvanceFirst(g, rng, k - 1);
    }
  }

  /**
    The i-th collected value is what `g` yields on the state left by the
    `i` runs before it, and the source ends after exactly `n` runs.
   */
  lemma {:induction false} RepeatElements<A>(g: Gen<A>, n: nat, rng: Lcrng)
    ensures forall i :: 0 <= i < n ==> Repeat(g, n, rng).0[i] == g(Advance(g, rng, i)).0
    ensures Repeat(g, n, rng).1 == Advance(g, rng, n)
  {
    if n > 0 {
      var r1 := g(rng).1;
      RepeatElements(g, n - 1, r1);
      AdvanceFirst(g, rng, n - 1);
      forall i | 0 <= i < n
        ensures Repeat(g, n, rng).0[i] == g(Advance(g, rng, i)).0
      {
        if i > 0 {
          AdvanceFirst(g, rng, i - 1);
        }
      }
    }
  }

  /** `g.array(of: count)`: the count is sampled first, then `g` runs that many times. */
  function Array<A>(g: Gen<A>, count: Gen<int>): (arr: Gen<seq<A>>)
    requires forall rng :: count(rng).0 >= 1
    ensures forall rng :: |arr(rng).0| == count(rng).0
  {
    rng => var (n, r1) := count(rng); Repeat(g, n, r1)
  }

  /**
    The count is drawn before any element: element `i` is `g` run on the
    state the count left, advanced by the `i` earlier elements, and the
    source ends after the count and exactly that many element runs.
   */
  lemma ArrayElements<A>(g: Gen<A>, count: Gen<int>, rng: Lcrng)
    requires forall r :: count(r).0 >= 1
    ensures forall i :: 0 <= i < count(rng).0 ==>
              Array(g, count)(rng).0[i] == g(Advance(g, count(rng).1, i)).0
    ensures Array(g, count)(rng).1 == Advance(g, count(rng).1, count(rng).0)
  {
    RepeatElements(g, count(rng).0, count(rng).1);
  }

  /** Every element satisfies any property every single run of `g` satisfies. */
  lemma ArrayAll<A>(g: Gen<A>, count: Gen<int>, p: A -> bool, rng: Lcrng)
    requires forall r :: count(r).0 >= 1
    requires forall r :: p(g(r).0)
    ensures forall i :: 0 <= i < count(rng).0 ==> p(Array(g, count)(rng).0[i])
  {
    ArrayElements(g, count, rng);
  }

  /** With a constant count `n` the array has exactly `n` elements. */
  lemma ArrayOfAlways<A>(g: Gen<A>, n: int, rng: Lcrng)
    requires n >= 1
    ensures |Array(g, Always(n))(rng).0| == n
    ensures Array(g, Always(n))(rng).1 == Advance(g, rng, n)
  {
    RepeatElements(g, n, rng);
  }

  /**
    The collecting loop itself, for an already sampled count: start with an
    empty array and append one run of `g` per pass over `1...count`.
   */
  method Collect<A>(g: Gen<A>, count: int, rng: Lcrng) returns (xs: seq<A>, rng': Lcrng)
    requires count >= 1
    ensures |xs| == count
    ensures forall i :: 0 <= i < count ==> xs[i] == g(Advance(g, rng, i)).0
    ensures rng' == Advance(g, rng, count)
    ensures (xs, rng') == Repeat(g, count, rng)
  {
    xs := [];
    rng' := rng;
    var k := 1;
    while k <= count
      invariant 1 <= k <= count + 1
      invariant |xs| == k - 1
      invariant rng' == Advance(g, rng, k - 1)
      invariant forall i :: 0 <= i < |xs| ==> xs[i] == g(Advance(g, rng, i)).0
    {
      var (a, r) := g(rng');
      xs := xs + [a];
      rng' := r;
      k := k + 1;
    }
    RepeatElements(g, count, rng);
    assert xs == Repeat(g, count, rng).0;
  }
}
