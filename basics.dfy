/** Small shared vocabulary: an Option type, a 3-D point, the iteration count of
    a counting `for` loop and the two sums the generators and the scene report use. */
module Basics {

  datatype Option<T> = None | Some(value: T)

  /** A point `{ x, y, z }`, as used for neuron positions and the camera. */
  datatype Vec3 = Vec3(x: real, y: real, z: real)

  /** How many times a loop counting i up from 0 while i < n runs its body: never for n <= 0. */
  function Iterations(n: int): nat {
    if n < 0 then 0 else n
  }

  /** Iterations of every entry of a list of sizes. */
  function IterationsOf(sizes: seq<int>): seq<nat> {
    seq(|sizes|, k requires 0 <= k < |sizes| => Iterations(sizes[k]))
  }

  /** The total of the sizes, folded from the left. */
  function Sum(sizes: seq<int>): int {
    if sizes == [] then 0 else Sum(sizes[..|sizes| - 1]) + sizes[|sizes| - 1]
  }

  /** The sum over adjacent pairs of `sizes[k] * sizes[k + 1]`, folded from the left:
      the number of edges of a fully connected chain of layers of these sizes. */
  function AdjacentProducts(sizes: seq<int>): int {
    if |sizes| < 2 then 0
    else AdjacentProducts(sizes[..|sizes| - 1]) + sizes[|sizes| - 2] * sizes[|sizes| - 1]
  }

  /** `sizes[..n]` and one more entry make `sizes[..n + 1]`. */
  lemma AdjacentProductsStep(sizes: seq<int>, n: nat)
    requires 1 <= n < |sizes|
    ensures AdjacentProducts(sizes[..n + 1]) == AdjacentProducts(sizes[..n]) + sizes[n - 1] * sizes[n]
  {
    assert sizes[..n + 1][..n] == sizes[..n];
  }

  /** The position of an edge in the nested generator loops: the layer it
      leaves, the neuron it leaves from and the neuron of the next layer it reaches. */
  datatype EdgeKey = EdgeKey(layer: nat, from: nat, to: nat)

  /** Strict lexicographic order on edge keys: the order the loops visit them. */
  predicate KeyLess(a: EdgeKey, b: EdgeKey) {
    || a.layer < b.layer
    || (a.layer == b.layer && a.from < b.from)
    || (a.layer == b.layer && a.from == b.from && a.to < b.to)
  }

  /** Clamping sizes that are already non-negative changes nothing. */
  lemma IterationsOfNonNegative(sizes: seq<int>)
    requires forall k :: 0 <= k < |sizes| ==> sizes[k] >= 0
    ensures IterationsOf(sizes) == sizes
  {
  }

  function MaxReal(a: real, b: real): real {
    if a >= b then a else b
  }

  function MinReal(a: real, b: real): real {
    if a <= b then a else b
  }

  function Abs(x: real): real {
    if x < 0.0 then -x else x
  }
}
