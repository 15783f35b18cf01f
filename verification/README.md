# Predictable random generators, modelled in Dafny

This project models the generator algebra of a small Swift library. A `Gen<A>`
describes how to draw one value of type `A` from a random source. Combinators
build bigger generators from smaller ones: `map`, `flatMap`, `always`, `zip`,
`zip(with:)`, `zip3`, `zip4`, `zip9` and `array(of:)`. The leaves are `int(in:)`,
`bool` and `element(of:)`. Everything runs on one reproducible source, the
64-bit linear congruential generator `LCRNG`.

In Swift a generator is a closure that takes the source `inout` and advances it.
Here a generator is a pure state transformer, `Gen<A> = Lcrng -> (A, Lcrng)`. It
returns the value together with the state the source is left in. Running a
closure against a mutable source and then reading the source back is the same
as applying the function and keeping the returned state. So every law below
talks about two things: the value that comes out, and the source state that is
left behind.

Files, one module each:

- `rng.dfy` (`Rng`): the LCRNG state, its wrapping update `Next`, and the
  stream of values it hands out.
- `gen.dfy` (`Generators`): the `Gen` type, `Map`, `FlatMap` and `Always`, plus
  the functor and monad laws.
- `leaves.dfy` (`Leaves`): `Int`, `Bool` and `Element`, built on abstract
  stdlib samplers passed in as parameters.
- `zips.dfy` (`Zips`): `Zip`, `ZipWith`, `Zip3`, `Zip4` and `Zip9`, each related
  to sequencing or to nested pairwise zips.
- `arrays.dfy` (`Arrays`): `array(of:)` as a function and as the collecting loop
  `Collect`.
- `digits.dfy` (`Digits`): the digit fold behind `exponential(digits:)`.

Modelling decisions:

- The standard-library samplers (`random(in:using:)`, `randomElement(using:)`,
  `Bool.random(using:)`) are not visible. `Int` and `Element` therefore take a
  parameter `draw` of type `Leaves.Below`. `Below` is the set of functions that,
  for any bound `n > 0`, return a number in `[0, n)` together with an advanced
  source. That bounded pick is all the model assumes about the integer and
  element samplers. Uniformity and the number of raw values consumed are not
  modelled. `ModuloBelow` (one LCRNG step reduced modulo `n`) exists only to
  show the type is inhabited. It is not claimed to be the stdlib's algorithm.
- `Bool` takes its own parameter `flip`, a function from source state to a
  `bool` and a new state. The stdlib's boolean sampler is separate from the
  bounded pick and documents nothing beyond yielding some `bool`, so `flip`
  carries no constraint and no law ties `Bool` to `Int`.
- `array(of:)` loops over `1...count`. Swift cannot form that range when `count`
  is below one, so the program traps. The model therefore *requires* that the
  count generator yield at least one from every source state. It does not
  clamp the count and does not return an empty array for zero.
- `int(in: lo...hi)` requires `lo <= hi`, because Swift cannot form the closed
  range otherwise. `exponential(digits:)` likewise requires `digits >= 1`.
- `zip(with:)`, `zip3`, `zip4` and `zip9` are curried in Swift: they take the
  combining function and return a function of the generators. The model takes
  all arguments at once. The order of runs is unchanged.
- Determinism holds by construction: a generator is a function of the source
  state, and the source state is a function of the seed, so equal seeds give
  equal values and equal leftover states. The stream's real content is in
  `Rng.OutputsElement` and `Rng.OutputsSplit`.
- The laws are stated pointwise, through `Generators.Same` ("same value and same
  leftover state from every source state"). This needs no function
  extensionality.

## Model

| member | source | states |
|---|---|---|
| `Rng.Next` | Contents.swift:133-136 | The value returned is the new state. The new state is below 2^64 and congruent to 2862933555777941757 * seed + 3037000493 modulo 2^64 (64-bit wrap-around). |
| `Rng.OutputsElement` | Contents.swift:133-136 | The i-th value the source hands out is the seed after i + 1 updates. |
| `Rng.OutputsSplit` | Contents.swift:126-137 | Drawing m + n values equals drawing m values and then n more from the advanced state. Successive uses of one source continue a single stream. |
| `Rng.SeedZeroStream` | Contents.swift:129-136 | From seed 0 the first three values are 3037000493, 7130919190303094438 and 15808069148326827323. |
| `Generators.AlwaysConsumesNothing` | Contents.swift:80-82 | `always(a)` yields `a` and leaves the source untouched. |
| `Generators.MapRunsOnce` | Contents.swift:23-25 | `g.map(f)` yields `f` of `g`'s value and leaves exactly `g`'s final state. |
| `Generators.MapIdentity` | Contents.swift:23-25 | `g.map(id)` behaves like `g`. |
| `Generators.MapFusion` | Contents.swift:23-25 | `g.map(f).map(h)` behaves like `g.map(h ∘ f)`. |
| `Generators.MapIsFlatMapAlways` | Contents.swift:23-25 | `g.map(f)` behaves like `g.flatMap { always(f($0)) }`. |
| `Generators.FlatMapSequences` | Contents.swift:55-62 | `g.flatMap(f)` runs `g` first, then runs `f(a)` on the state `g` left. |
| `Generators.FlatMapLeftIdentity` | Contents.swift:55-62 | `always(a).flatMap(f)` behaves like `f(a)`. |
| `Generators.FlatMapRightIdentity` | Contents.swift:55-62 | `g.flatMap(always)` behaves like `g`. |
| `Generators.FlatMapAssociative` | Contents.swift:55-62 | `g.flatMap(f).flatMap(h)` behaves like `g.flatMap { f($0).flatMap(h) }`. |
| `Leaves.Int` | Contents.swift:38-40 | Every sample lies in the closed range `lo...hi`, given `lo <= hi`. |
| `Leaves.Element` | Contents.swift:49-51 | The pick is `nil` exactly when the array is empty; otherwise it is a member of the array. On an empty array nothing is drawn and the source is left as it was. |
| `Zips.ZipIsFlatMap` | Contents.swift:85-89 | `zip(ga, gb)` behaves like binding `ga` and then running `gb` and pairing. |
| `Zips.ZipConsumesInOrder` | Contents.swift:85-89 | The first component is `ga`'s value, the second is `gb`'s value on the state `ga` left, and the source ends where `ga` then `gb` leave it. |
| `Zips.ZipWithIsSequencing` | Contents.swift:91-93 | `zip(with: f)(ga, gb)` runs `ga`, then `gb`, and combines the two values with `f`. |
| `Zips.Zip3IsNestedZip` | Contents.swift:95-103 | `zip3` behaves like two nested pairwise zips followed by one map. |
| `Zips.Zip4IsNestedZip` | Contents.swift:105-113 | `zip4` behaves like three nested pairwise zips followed by one map. |
| `Zips.Zip9IsNestedZip` | Contents.swift:115-124 | `zip9` behaves like eight nested pairwise zips followed by one map. |
| `Arrays.Repeat` | Contents.swift:69-73 | Running `g` n times yields exactly n values. |
| `Arrays.RepeatElements` | Contents.swift:69-73 | Value i is `g` run on the state left by the i runs before it. After n runs the source has advanced by exactly n runs of `g`. |
| `Arrays.Array` | Contents.swift:66-76 | The array's length equals the count sampled from the count generator. |
| `Arrays.ArrayElements` | Contents.swift:66-76 | The count is sampled first. Element i is `g` run on the state the count left, advanced by i earlier runs. The source ends after exactly `count` runs. |
| `Arrays.ArrayAll` | Contents.swift:66-76 | If every run of `g` satisfies a property, every element of the array does. |
| `Arrays.ArrayOfAlways` | Contents.swift:66-80 | With `always(n)` as count, n ≥ 1, the array has n elements and the source advances by n runs. |
| `Arrays.Collect` | Contents.swift:68-73 | The appending loop over `1...count` builds the same values, in the same order, with the same final state as `Repeat`. |
| `Digits.FoldDigitsBounds` | Contents.swift:186 | Folding k ≥ 1 digits from 1 to 9 with `acc * 10 + d` gives a number with exactly k decimal places. |
| `Digits.ExponentialRange` | Contents.swift:183-187 | Every sample of `exponential(digits:)` lies in [1, 10^digits). |

## Left out

- `Gen.float(in:)` (Contents.swift:28-35): floating-point sampling is not modelled.
- `AnyRandomNumberGenerator` and `run(using:)` (Contents.swift:3-8, 13-18): these
  are type-erasure plumbing around the source. The model has exactly one source
  type, `Rng.Lcrng`, and running a generator is applying it.
- `SystemRandomNumberGenerator`, `Environment` and the global `Current`
  (Contents.swift:139-144): host entropy and a process-wide mutable default
  source. Choosing a seed is up to the caller of the model.
- How the standard-library samplers work. That includes the rejection sampling
  behind `random(in:)`, how many raw values a draw consumes, and the bit
  `Bool.random` takes from a raw value. Only the bounded-pick promise in
  `Leaves.Below` is kept.
- Leaves.Bool: no property is stated, because the standard library documents
  none for `Bool.random(using:)` beyond returning some `bool`.
- Uniformity and fairness are probabilistic claims and cannot be stated over
  deterministic state transformers.
- No property separates `zip(gb, ga)` from `zip(ga, gb)`; for constant
  generators they agree.
- Digits.FoldDigits: uses unbounded integers. In Swift the fold `$0 * 10 + $1`
  (Contents.swift:186) traps once the value passes `Int.max`, which can happen
  when `digits >= 19`; that trap is not modelled. The LCRNG's own 64-bit
  wrap-around is modelled exactly.
- The domain script is not modelled (Contents.swift:148-182, 189-191). That is
  the `Alien` record and the `vowel`, `consonant`, `syllable`, `name`, `ten` and
  `alien` generators. They are data definitions over the core. The digit fold
  inside `exponential(digits:)` is modelled.
- The CSV rendering and `print` (Contents.swift:193-197): formatting and output.
