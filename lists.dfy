/** Python list and integer built-ins that the optimisers rely on. */
module Lists {

  function Min(a: int, b: int): int { if a <= b then a else b }

  function Max(a: int, b: int): int { if a >= b then a else b }

  /** Python's `xs[:stop]`: a negative `stop` counts from the end. */
  function Prefix<T>(xs: seq<T>, stop: int): (r: seq<T>)
    ensures 0 <= stop ==> r == xs[..Min(stop, |xs|)]
    ensures stop < 0 ==> r == xs[..Max(0, |xs| + stop)]
  {
    if 0 <= stop then
      if stop <= |xs| then xs[..stop] else xs
    else if 0 <= |xs| + stop then xs[..|xs| + stop]
    else []
  }

  /** No element occurs twice (the keys of a Python dict). */
  predicate Distinct<T(==)>(xs: seq<T>) {
    forall i, j :: 0 <= i < j < |xs| ==> xs[i] != xs[j]
  }

  /** Python's `list(range(n))`. */
  function Range(n: nat): (r: seq<nat>)
    ensures |r| == n
    ensures forall i :: 0 <= i < n ==> r[i] == i
  {
    seq(n, i => i)
  }
}
