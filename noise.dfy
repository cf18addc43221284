/** The seeded noise utility: a linear congruential generator, the in-place
    Fisher–Yates shuffle of the 256-entry lattice permutation, 1D gradient
    noise with a quintic fade, and the amplitude-normalised octave sum. */
module Noise {
  import opened Util
  import opened Blend

  // ---------------------------------------------------------------------
  // Linear congruential generator

  const Multiplier: int := 9301
  const Increment: int := 49297
  const Modulus: int := 233280

  /** A multiple of `m` leaves no remainder. */
  lemma MultipleRem(k: int, m: int)
    requires m > 0
    ensures (k * m) % m == 0
  {
    var t := k * m;
    var d := k - t / m;
    assert m * d == t % m;
    assert m * (1 - d) == m - t % m;
    PositiveFactor(m, 1 - d);
    NonnegativeFactor(m, d);
  }

  lemma PositiveFactor(m: int, e: int)
    requires m > 0 && m * e > 0
    ensures e > 0
  {
  }

  lemma NonnegativeFactor(m: int, e: int)
    requires m > 0 && m * e >= 0
    ensures e >= 0
  {
  }

  /** JavaScript's `%`: the remainder takes the sign of the dividend, and the
      dividend minus the remainder is a multiple of `m`. */
  function JsRem(a: int, m: int): (r: int)
    requires m > 0
    ensures a >= 0 ==> 0 <= r < m
    ensures a < 0 ==> -m < r <= 0
    ensures (a - r) % m == 0
  {
    if a >= 0 then
      MultipleRem(a / m, m);
      assert a - a % m == (a / m) * m;
      a % m
    else
      MultipleRem(-((-a) / m), m);
      assert a + (-a) % m == (-((-a) / m)) * m;
      -((-a) % m)
  }

  /** One step of the generator's state. */
  function LcgStep(state: int): (next: int)
    ensures state >= 0 ==> 0 <= next < Modulus
    ensures -Modulus < next < Modulus
  {
    JsRem(state * Multiplier + Increment, Modulus)
  }

  /** The value a call returns, computed from the state it has just stored. */
  function Unit(state: int): real
  {
    state as real / Modulus as real
  }

  lemma UnitRange(state: int)
    requires 0 <= state < Modulus
    ensures 0.0 <= Unit(state) < 1.0
  {
  }

  /** The state after `n` calls of a generator created with `seed`. */
  function LcgState(seed: int, n: nat): int
  {
    if n == 0 then seed else LcgStep(LcgState(seed, n - 1))
  }

  /** From a non-negative integer seed every state after the first call lies
      in [0, 233280), so every value returned lies in [0, 1). */
  lemma {:induction false} LcgStaysInRange(seed: int, n: nat)
    requires seed >= 0
    ensures LcgState(seed, n) >= 0
    ensures n >= 1 ==> LcgState(seed, n) < Modulus && 0.0 <= Unit(LcgState(seed, n)) < 1.0
  {
    if n > 0 {
      LcgStaysInRange(seed, n - 1);
    }
  }

  /** Two generators whose states agree produce the same values from then on. */
  lemma {:induction false} LcgSameSeedSameStream(seed: int, m: nat, n: nat)
    ensures LcgState(LcgState(seed, m), n) == LcgState(seed, m + n)
  {
    if n > 0 {
      LcgSameSeedSameStream(seed, m, n - 1);
    }
  }

  /** `createSeededRandom`: the closure over `state` becomes an object. */
  class SeededRandom {
    var state: int

    constructor (seed: int)
      ensures state == seed
    {
      state := seed;
    }

    method Next() returns (r: real)
      modifies this
      ensures state == LcgStep(old(state))
      ensures r == Unit(state)
      ensures old(state) >= 0 ==> 0.0 <= r < 1.0
    {
      state := LcgStep(state);
      r := Unit(state);
    }
  }

  // ---------------------------------------------------------------------
  // The permutation table and its shuffle

  const TableSize: int := 256

  function Identity(): seq<int>
  {
    seq(TableSize, i => i)
  }

  ghost predicate IsPermutationOf(p: seq<int>, q: seq<int>)
  {
    multiset(p) == multiset(q)
  }

  /** Destructuring `[a[i], a[j]] = [a[j], a[i]]`. */
  function Swap(p: seq<int>, i: int, j: int): (q: seq<int>)
    requires 0 <= i < |p| && 0 <= j < |p|
    ensures |q| == |p| && q[i] == p[j] && q[j] == p[i]
    ensures forall k :: 0 <= k < |p| && k != i && k != j ==> q[k] == p[k]
  {
    p[i := p[j]][j := p[i]]
  }

  lemma SwapPermutes(p: seq<int>, i: int, j: int)
    requires 0 <= i < |p| && 0 <= j < |p|
    ensures multiset(Swap(p, i, j)) == multiset(p)
  {
    var q := p[i := p[j]];
    assert multiset(q) == multiset(p) - multiset{p[i]} + multiset{p[j]};
    assert multiset(q[j := p[i]]) == multiset(q) - multiset{q[j]} + multiset{p[i]};
  }

  lemma SwapTwice(p: seq<int>, i: int, j: int)
    requires 0 <= i < |p| && 0 <= j < |p|
    ensures Swap(Swap(p, i, j), i, j) == p
  {
    var q := Swap(Swap(p, i, j), i, j);
    assert forall k :: 0 <= k < |p| ==> q[k] == p[k];
  }

  /** `Math.floor(r * (i + 1))` for the value `r` read from `state`. */
  function SwapIndex(state: int, i: nat): (j: int)
    requires 0 <= state < Modulus
    ensures 0 <= j <= i
  {
    var u := Unit(state);
    ScaledBelow(u, (i + 1) as real);
    (u * (i + 1) as real).Floor
  }

  lemma SwapIndexOfDraw(state: int, i: nat, r: real)
    requires 0 <= state < Modulus && r == Unit(state)
    ensures (r * (i + 1) as real).Floor == SwapIndex(state, i)
  {
  }

  /** The rest of the descending loop, from index `i` down to 1, with the
      generator in `state`. */
  function ShuffleFrom(p: seq<int>, state: int, i: nat): (q: seq<int>)
    requires i < |p| && state >= 0
    ensures |q| == |p|
    decreases i
  {
    if i == 0 then p
    else
      var s := LcgStep(state);
      ShuffleFrom(Swap(p, i, SwapIndex(s, i)), s, i - 1)
  }

  /** One iteration of the descending loop, unfolded: the proof step that
      `NoiseTable.Reseed` takes on each pass of its loop. */
  lemma ShuffleFromStep(p: seq<int>, state: int, i: nat)
    requires 0 < i < |p| && state >= 0
    ensures ShuffleFrom(p, state, i)
      == ShuffleFrom(Swap(p, i, SwapIndex(LcgStep(state), i)), LcgStep(state), i - 1)
  {
  }

  lemma SwapInArray(before: seq<int>, after: seq<int>, i: int, j: int)
    requires 0 <= i < |before| && 0 <= j < |before| && |after| == |before|
    requires after[i] == before[j] && after[j] == before[i]
    requires forall k :: 0 <= k < |before| && k != i && k != j ==> after[k] == before[k]
    ensures after == Swap(before, i, j)
  {
  }

  /** `reseedPermutation(seed)` applied to a table `p`. */
  function Shuffle(p: seq<int>, seed: nat): (q: seq<int>)
    ensures |q| == |p|
  {
    if p == [] then p else ShuffleFrom(p, seed, |p| - 1)
  }

  lemma {:induction false} ShuffleFromPermutes(p: seq<int>, state: int, i: nat)
    requires i < |p| && state >= 0
    ensures multiset(ShuffleFrom(p, state, i)) == multiset(p)
    decreases i
  {
    if i > 0 {
      var s := LcgStep(state);
      var j := SwapIndex(s, i);
      SwapPermutes(p, i, j);
      ShuffleFromPermutes(Swap(p, i, j), s, i - 1);
    }
  }

  /** A reseed only rearranges the table. */
  lemma ShufflePermutes(p: seq<int>, seed: nat)
    ensures IsPermutationOf(Shuffle(p, seed), p)
  {
    if p != [] {
      ShuffleFromPermutes(p, seed, |p| - 1);
    }
  }

  lemma {:induction false} ShuffleFromInjective(p: seq<int>, q: seq<int>, state: int, i: nat)
    requires i < |p| && |p| == |q| && state >= 0
    requires ShuffleFrom(p, state, i) == ShuffleFrom(q, state, i)
    ensures p == q
    decreases i
  {
    if i > 0 {
      var s := LcgStep(state);
      var j := SwapIndex(s, i);
      ShuffleFromInjective(Swap(p, i, j), Swap(q, i, j), s, i - 1);
      SwapTwice(p, i, j);
      SwapTwice(q, i, j);
    }
  }

  /** Reseeding shuffles the current contents instead of starting again from
      the identity: with the same seed, different tables stay different. */
  lemma ShuffleDependsOnTable(p: seq<int>, q: seq<int>, seed: nat)
    requires |p| == |q| && p != q
    ensures Shuffle(p, seed) != Shuffle(q, seed)
  {
    if Shuffle(p, seed) == Shuffle(q, seed) {
      ShuffleFromInjective(p, q, seed, |p| - 1);
    }
  }

  /** A sequence of reseeds, oldest first. */
  function ShuffleAll(p: seq<int>, seeds: seq<nat>): (q: seq<int>)
    ensures |q| == |p|
    decreases |seeds|
  {
    if seeds == [] then p else ShuffleAll(Shuffle(p, seeds[0]), seeds[1..])
  }

  /** Starting from the identity, the table is a permutation of 0..255 after
      any number of reseeds. */
  lemma {:induction false} ShuffleAllPermutes(p: seq<int>, seeds: seq<nat>)
    ensures IsPermutationOf(ShuffleAll(p, seeds), p)
    decreases |seeds|
  {
    if seeds != [] {
      ShufflePermutes(p, seeds[0]);
      ShuffleAllPermutes(Shuffle(p, seeds[0]), seeds[1..]);
    }
  }

  // ---------------------------------------------------------------------
  // Gradient noise

  /** `Math.floor(x) & 255`: the low eight bits of the two's complement
      integer, which is the Euclidean remainder by 256. */
  function LatticeIndex(x: real): (k: int)
    ensures 0 <= k < TableSize && k + 1 < 2 * TableSize
    ensures (x.Floor - k) % TableSize == 0
  {
    x.Floor % TableSize
  }

  function Quintic(t: real): real
  {
    t * t * t * (t * (t * 6.0 - 15.0) + 10.0)
  }

  lemma SquareNonneg(x: real)
    ensures 0.0 <= x * x
  {
    if x >= 0.0 { MulNonneg(x, x); } else { MulNonneg(-x, -x); }
  }

  /** The fade is 0 at 0, 1 at 1 and stays inside [0, 1] in between. */
  lemma QuinticUnit(t: real)
    requires 0.0 <= t <= 1.0
    ensures Quintic(0.0) == 0.0 && Quintic(1.0) == 1.0
    ensures 0.0 <= Quintic(t) <= 1.0
  {
    var c := t * (t * 6.0 - 15.0) + 10.0;
    assert c == 6.0 * (t - 1.25) * (t - 1.25) + 0.625;
    SquareNonneg(t - 1.25);
    MulNonneg(t, t);
    MulNonneg(t * t, t);
    MulNonneg(t * t * t, c);
    var d := 1.0 - t;
    var e := 6.0 * t * t + 3.0 * t + 1.0;
    assert 1.0 - Quintic(t) == d * d * d * e;
    MulNonneg(d, d);
    MulNonneg(d * d, d);
    MulNonneg(d * d * d, e);
  }

  /** `grad`: the sign of the slope is the low bit of the hash. */
  function Grad(hash: int, x: real): real
  {
    if hash % 2 == 0 then x else -x
  }

  /** `noise(x)` over the table `table`: the two lattice hashes are read from
      the table written out twice, so index `X + 1` never leaves it. */
  function Noise(table: seq<int>, x: real): real
    requires |table| == TableSize
  {
    var k := LatticeIndex(x);
    var f := x - x.Floor as real;
    var doubled := table + table;
    Lerp(Grad(doubled[k], f), Grad(doubled[k + 1], f - 1.0), Quintic(f)) * 2.0
  }

  /** The noise vanishes at every lattice point. */
  lemma NoiseAtLattice(table: seq<int>, n: int)
    requires |table| == TableSize
    ensures Noise(table, n as real) == 0.0
  {
    assert (n as real).Floor == n;
    assert Quintic(0.0) == 0.0;
  }

  /** In exact arithmetic the noise never leaves [-2, 2]. */
  lemma NoiseBounded(table: seq<int>, x: real)
    requires |table| == TableSize
    ensures -2.0 <= Noise(table, x) <= 2.0
  {
    var k := LatticeIndex(x);
    var f := x - x.Floor as real;
    var doubled := table + table;
    QuinticUnit(f);
    LerpWithin(Grad(doubled[k], f), Grad(doubled[k + 1], f - 1.0), Quintic(f), -1.0, 1.0);
  }

  // ---------------------------------------------------------------------
  // Fractal sum

  function Pow(b: real, n: nat): real
  {
    if n == 0 then 1.0 else Pow(b, n - 1) * b
  }

  /** What the remaining `n` octaves add to `maxValue` when the running
      amplitude is `a`: a + a p + ... + a p^(n-1). */
  function AmplitudeSum(a: real, p: real, n: nat): real
    decreases n
  {
    if n == 0 then 0.0 else a + AmplitudeSum(a * p, p, n - 1)
  }

  /** What the remaining `n` octaves add to `total` when the running frequency
      is `f` and the running amplitude is `a`, for a sampling function. */
  function OctaveSum(sample: real -> real, x: real, f: real, a: real, p: real, l: real, n: nat): real
    decreases n
  {
    if n == 0 then 0.0
    else sample(x * f) * a + OctaveSum(sample, x, f * l, a * p, p, l, n - 1)
  }

  /** With a positive amplitude and persistence the weights add up to at
      least the first one. */
  lemma {:induction false} AmplitudeSumPositive(a: real, p: real, n: nat)
    requires a > 0.0 && p > 0.0
    ensures n >= 1 ==> AmplitudeSum(a, p, n) >= a
    ensures AmplitudeSum(a, p, n) >= 0.0
    decreases n
  {
    if n > 0 {
      MulPos(a, p);
      AmplitudeSumPositive(a * p, p, n - 1);
    }
  }

  /** `maxValue` is the geometric series: (1 - p) * (1 + p + ... + p^(n-1))
      == 1 - p^n, here for any first amplitude `a`. */
  lemma {:induction false} AmplitudeSumGeometric(a: real, p: real, n: nat)
    ensures (1.0 - p) * AmplitudeSum(a, p, n) == a - a * Pow(p, n)
    decreases n
  {
    if n > 0 {
      AmplitudeSumGeometric(a * p, p, n - 1);
      assert a * Pow(p, n) == (a * p) * Pow(p, n - 1);
    }
  }

  lemma SumBounded(total: real, weight: real, term: real, a: real)
    requires -2.0 * weight <= total <= 2.0 * weight
    requires -2.0 * a <= term <= 2.0 * a
    ensures -2.0 * (weight + a) <= total + term <= 2.0 * (weight + a)
  {
  }

  lemma WeightedSampleBounded(s: real, a: real)
    requires -2.0 <= s <= 2.0 && a > 0.0
    ensures -2.0 * a <= s * a <= 2.0 * a
  {
    MulNonneg(2.0 - s, a);
    MulNonneg(s + 2.0, a);
  }

  /** When every sample lies in [-2, 2] the weighted total lies within twice
      the total weight. */
  lemma {:induction false} OctaveSumBounded(sample: real -> real, x: real, f: real, a: real, p: real, l: real, n: nat)
    requires a > 0.0 && p > 0.0
    requires forall y :: -2.0 <= sample(y) <= 2.0
    ensures -2.0 * AmplitudeSum(a, p, n) <= OctaveSum(sample, x, f, a, p, l, n) <= 2.0 * AmplitudeSum(a, p, n)
    decreases n
  {
    if n > 0 {
      MulPos(a, p);
      OctaveSumBounded(sample, x, f * l, a * p, p, l, n - 1);
      var s := sample(x * f);
      var rest := OctaveSum(sample, x, f * l, a * p, p, l, n - 1);
      var w := AmplitudeSum(a * p, p, n - 1);
      WeightedSampleBounded(s, a);
      SumBounded(rest, w, s * a, a);
      assert OctaveSum(sample, x, f, a, p, l, n) == s * a + rest;
      assert AmplitudeSum(a, p, n) == a + w;
    }
  }

  lemma QuotientBounded(total: real, weight: real)
    requires weight > 0.0 && -2.0 * weight <= total <= 2.0 * weight
    ensures -2.0 <= total / weight <= 2.0
  {
    var q := total / weight;
    assert q * weight == total;
    if q > 2.0 {
      MulPos(q - 2.0, weight);
    }
    if q < -2.0 {
      MulPos(-2.0 - q, weight);
    }
  }

  /** The noise over `table` as a sampling function. */
  function Sampler(table: seq<int>): real -> real
    requires |table| == TableSize
  {
    y => Noise(table, y)
  }

  /** `fbm` over the table `table`, with `None` for the NaN or infinity that
      `total / maxValue` yields when `maxValue` is 0. */
  function FbmValue(table: seq<int>, x: real, octaves: nat, p: real, l: real): Option<real>
    requires |table| == TableSize
  {
    var weight := AmplitudeSum(1.0, p, octaves);
    if weight == 0.0 then None
    else Some(OctaveSum(Sampler(table), x, 1.0, 1.0, p, l, octaves) / weight)
  }

  /** With at least one octave and a positive persistence `fbm` is the
      amplitude-weighted average of noise samples, so it lies in [-2, 2]. */
  lemma FbmBounded(table: seq<int>, x: real, octaves: nat, p: real, l: real)
    requires |table| == TableSize && octaves >= 1 && p > 0.0
    ensures FbmValue(table, x, octaves, p, l).Some?
    ensures -2.0 <= FbmValue(table, x, octaves, p, l).value <= 2.0
  {
    var sample := Sampler(table);
    forall y ensures -2.0 <= sample(y) <= 2.0 {
      NoiseBounded(table, y);
    }
    AmplitudeSumPositive(1.0, p, octaves);
    OctaveSumBounded(sample, x, 1.0, 1.0, p, l, octaves);
    QuotientBounded(OctaveSum(sample, x, 1.0, 1.0, p, l, octaves), AmplitudeSum(1.0, p, octaves));
  }

  /** The octave loop of `fbm` over a sampling function: each pass adds the
      sample at the running frequency weighted by the running amplitude to
      `total`, adds the amplitude to `maxValue`, then scales the amplitude by
      the persistence and the frequency by the lacunarity. */
  method OctaveLoop(sample: real -> real, x: real, octaves: nat, persistence: real, lacunarity: real)
    returns (total: real, maxValue: real)
    ensures total == OctaveSum(sample, x, 1.0, 1.0, persistence, lacunarity, octaves)
    ensures maxValue == AmplitudeSum(1.0, persistence, octaves)
  {
    ghost var goalTotal := OctaveSum(sample, x, 1.0, 1.0, persistence, lacunarity, octaves);
    ghost var goalMax := AmplitudeSum(1.0, persistence, octaves);
    var frequency, amplitude := 1.0, 1.0;
    total, maxValue := 0.0, 0.0;
    var i := 0;
    while i < octaves
      invariant 0 <= i <= octaves
      invariant total + OctaveSum(sample, x, frequency, amplitude, persistence, lacunarity, octaves - i) == goalTotal
      invariant maxValue + AmplitudeSum(amplitude, persistence, octaves - i) == goalMax
    {
      total := total + sample(x * frequency) * amplitude;
      maxValue := maxValue + amplitude;
      amplitude := amplitude * persistence;
      frequency := frequency * lacunarity;
      i := i + 1;
    }
  }

  // The module's mutable table

  /** The module-level `PERMUTATION` array and the functions that read and
      shuffle it. */
  class NoiseTable {
    const permutation: array<int>

    ghost predicate Valid()
      reads this, permutation
    {
      permutation.Length == TableSize && IsPermutationOf(permutation[..], Identity())
    }

    /** `Array.from({ length: 256 }, (_, i) => i)`. */
    constructor ()
      ensures Valid() && fresh(permutation)
      ensures permutation[..] == Identity()
    {
      permutation := new int[TableSize](i => i);
      new;
      assert permutation[..] == Identity();
    }

    /** `reseedPermutation(seed)`: a fresh generator, then the descending
        Fisher–Yates loop swapping in place. */
    method Reseed(seed: nat)
      requires Valid()
      modifies permutation
      ensures Valid()
      ensures permutation[..] == Shuffle(old(permutation[..]), seed)
    {
      ghost var start := permutation[..];
      var rng := new SeededRandom(seed);
      var i := permutation.Length - 1;
      while i > 0
        invariant 0 <= i < permutation.Length
        invariant rng.state >= 0
        invariant ShuffleFrom(permutation[..], rng.state, i) == Shuffle(start, seed)
        decreases i
      {
        ghost var before := permutation[..];
        ghost var was := rng.state;
        var r := rng.Next();
        var j := (r * (i + 1) as real).Floor;
        SwapIndexOfDraw(rng.state, i, r);
        permutation[i], permutation[j] := permutation[j], permutation[i];
        SwapInArray(before, permutation[..], i, j);
        ShuffleFromStep(before, was, i);
        i := i - 1;
      }
      ShufflePermutes(start, seed);
    }

    /** `noise(x)` over the current table. */
    function Sample(x: real): (v: real)
      reads this, permutation
      requires Valid()
      ensures -2.0 <= v <= 2.0
      ensures x == x.Floor as real ==> v == 0.0
    {
      NoiseBounded(permutation[..], x);
      NoiseAtLattice(permutation[..], x.Floor);
      Noise(permutation[..], x)
    }

    /** `fbm(x, octaves, persistence, lacunarity)`. */
    method Fbm(x: real, octaves: nat, persistence: real, lacunarity: real) returns (r: Option<real>)
      requires Valid()
      ensures r == FbmValue(permutation[..], x, octaves, persistence, lacunarity)
      ensures octaves >= 1 && persistence > 0.0 ==> r.Some? && -2.0 <= r.value <= 2.0
    {
      var table := permutation[..];
      var total, maxValue := OctaveLoop(Sampler(table), x, octaves, persistence, lacunarity);
      r := if maxValue == 0.0 then None else Some(total / maxValue);
      assert r == FbmValue(table, x, octaves, persistence, lacunarity);
      if octaves >= 1 && persistence > 0.0 {
        FbmBounded(table, x, octaves, persistence, lacunarity);
      }
    }
  }
}
