/**
 * Python's `random.Random`, as far as the optimisers use it. The generator is
 * abstracted to a stream of raw draws per seed; `sample` and `shuffle` keep the
 * library's structure (which draw decides which position), not its bit-exact output.
 */
module Rand {
  import opened Wrappers
  import opened Lists
  import opened Models

  /** `Source(seed)(i)` is raw draw number i of a generator seeded with `seed`. */
  type Source = int -> nat -> nat

  /** Taking position j out of a pool by moving the pool's last element into it. */
  function TakeOut<T>(pool: seq<T>, j: nat): (rest: seq<T>)
    requires j < |pool|
    ensures |rest| == |pool| - 1
    ensures forall t :: 0 <= t < |rest| ==> rest[t] == if t == j then pool[|pool| - 1] else pool[t]
    ensures multiset(rest) + multiset{pool[j]} == multiset(pool)
  {
    var n := |pool|;
    var u := pool[j := pool[n - 1]];
    assert u == u[..n - 1] + [u[n - 1]];
    assert u[n - 1] == pool[n - 1];
    assert multiset(u) == multiset(pool) - multiset{pool[j]} + multiset{pool[n - 1]};
    u[..n - 1]
  }

  /**
   * `random.sample(pool, k)`: k times, draw a position below the size of what is
   * left of the pool, take that element and move the pool's last element into its place.
   */
  function SampleFrom<T>(pool: seq<T>, k: nat, draws: nat -> nat, at: nat): (r: seq<T>)
    requires k <= |pool|
    ensures |r| == k
    decreases k
  {
    if k == 0 then []
    else
      var j := draws(at) % |pool|;
      [pool[j]] + SampleFrom(TakeOut(pool, j), k - 1, draws, at + 1)
  }

  /** A sample takes each element from its own position of the pool: no position twice. */
  lemma {:induction false} SampleFromSubMultiset<T>(pool: seq<T>, k: nat, draws: nat -> nat, at: nat)
    requires k <= |pool|
    ensures multiset(SampleFrom(pool, k, draws, at)) <= multiset(pool)
    decreases k
  {
    if k > 0 {
      var j := draws(at) % |pool|;
      var rest := TakeOut(pool, j);
      SampleFromSubMultiset(rest, k - 1, draws, at + 1);
      assert SampleFrom(pool, k, draws, at) == [pool[j]] + SampleFrom(rest, k - 1, draws, at + 1);
    }
  }

  /** `random.shuffle` from position i down to 1: swap position i with a drawn position j <= i. */
  function ShuffleDown<T>(xs: seq<T>, i: nat, draws: nat -> nat, at: nat): (r: seq<T>)
    requires i < |xs|
    ensures |r| == |xs|
    decreases i
  {
    if i == 0 then xs
    else
      var j := draws(at) % (i + 1);
      ShuffleDown(xs[i := xs[j]][j := xs[i]], i - 1, draws, at + 1)
  }

  /** Each step of the shuffle swaps two positions, so the elements stay the same. */
  lemma {:induction false} ShuffleDownPermutes<T>(xs: seq<T>, i: nat, draws: nat -> nat, at: nat)
    requires i < |xs|
    ensures multiset(ShuffleDown(xs, i, draws, at)) == multiset(xs)
    decreases i
  {
    if i > 0 {
      var j := draws(at) % (i + 1);
      var swapped := xs[i := xs[j]][j := xs[i]];
      ShuffleDownPermutes(swapped, i - 1, draws, at + 1);
    }
  }

  /** `random.shuffle(xs)`: xs reordered by |xs| - 1 draws. */
  function Shuffled<T>(xs: seq<T>, draws: nat -> nat, at: nat): (r: seq<T>)
    ensures |r| == |xs|
  {
    if xs == [] then [] else ShuffleDown(xs, |xs| - 1, draws, at)
  }

  /** The shuffle is a permutation: the same elements, each as often. */
  lemma ShuffledPermutes<T>(xs: seq<T>, draws: nat -> nat, at: nat)
    ensures multiset(Shuffled(xs, draws, at)) == multiset(xs)
  {
    if xs != [] {
      ShuffleDownPermutes(xs, |xs| - 1, draws, at);
    }
  }

  /** A generator object: its seed fixes the stream of draws; `used` counts the draws taken so far. */
  class Random {
    const draws: nat -> nat
    var used: nat

    /** `random.Random(seed)`. */
    constructor (source: Source, seed: int)
      ensures draws == source(seed) && used == 0
    {
      draws := source(seed);
      used := 0;
    }

    /** `_randbelow(n)`: a number below n, from the next draw. */
    method RandBelow(n: nat) returns (r: nat)
      requires 0 < n
      modifies this
      ensures r < n && r == draws(old(used)) % n
      ensures used == old(used) + 1
    {
      r := draws(used) % n;
      used := used + 1;
    }

    /** `randint(a, b)`: a number in [a, b], or ValueError for an empty range. */
    method RandInt(a: int, b: int) returns (r: Result<int, Error>)
      modifies this
      ensures r.Success? <==> a <= b
      ensures r.Success? ==> a <= r.value <= b && r.value == a + draws(old(used)) % (b - a + 1)
      ensures r.Success? ==> used == old(used) + 1
      ensures r.Failure? ==> r.error.ValueError? && used == old(used)
    {
      if b < a {
        r := Failure(ValueError("empty range for randrange"));
      } else {
        var d := RandBelow(b - a + 1);
        r := Success(a + d);
      }
    }

    /** `sample(population, k)`: k elements from distinct positions, or ValueError. */
    method Sample<T>(population: seq<T>, k: int) returns (r: Result<seq<T>, Error>)
      modifies this
      ensures r.Success? <==> 0 <= k <= |population|
      ensures r.Success? ==> r.value == SampleFrom(population, k, draws, old(used)) && used == old(used) + k
      ensures r.Failure? ==> r.error.ValueError? && used == old(used)
    {
      if k < 0 || |population| < k {
        r := Failure(ValueError("Sample larger than population or is negative"));
      } else {
        r := Success(SampleFrom(population, k, draws, used));
        used := used + k;
      }
    }

    /** `shuffle(xs)`: the list reordered; the caller stores the result back. */
    method Shuffle<T>(xs: seq<T>) returns (r: seq<T>)
      modifies this
      ensures r == Shuffled(xs, draws, old(used))
      ensures used == old(used) + Max(0, |xs| - 1)
    {
      r := Shuffled(xs, draws, used);
      used := used + Max(0, |xs| - 1);
    }
  }
}
