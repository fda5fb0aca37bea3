/**
  Vectors over exact reals and the element-wise mean that the vector store
  computes with `np.array(vectors).mean(axis=0)` (backend/services/vector_store.py).
 */
module Vectors {

  type Vector = seq<real>

  /** Every vector in `vs` has exactly `d` entries. */
  predicate Uniform(vs: seq<Vector>, d: nat) {
    forall i :: 0 <= i < |vs| ==> |vs[i]| == d
  }

  /**
    A batch numpy turns into a 2-D array with a defined mean: at least one
    vector, all of the same length.
   */
  predicate WellFormedBatch(vs: seq<Vector>) {
    |vs| > 0 && Uniform(vs, |vs[0]|)
  }

  /** The sum of column `j` over all vectors of the batch. */
  function ColumnSum(vs: seq<Vector>, j: nat): (sum: real)
    requires forall i :: 0 <= i < |vs| ==> j < |vs[i]|
  {
    if vs == [] then 0.0 else vs[0][j] + ColumnSum(vs[1..], j)
  }

  /** The element-wise arithmetic mean of a well-formed batch. */
  function Mean(vs: seq<Vector>): (m: Vector)
    requires WellFormedBatch(vs)
    ensures |m| == |vs[0]|
    ensures forall j :: 0 <= j < |m| ==> m[j] * (|vs| as real) == ColumnSum(vs, j)
  {
    seq(|vs[0]|, j requires 0 <= j < |vs[0]| => ColumnSum(vs, j) / (|vs| as real))
  }

  lemma {:induction false} ColumnSumOfCopies(vs: seq<Vector>, v: Vector, j: nat)
    requires j < |v|
    requires forall i :: 0 <= i < |vs| ==> vs[i] == v
    ensures ColumnSum(vs, j) == (|vs| as real) * v[j]
  {
    if vs != [] {
      ColumnSumOfCopies(vs[1..], v, j);
    }
  }

  /** The mean of a batch of identical vectors is that vector. */
  lemma MeanOfCopies(vs: seq<Vector>, v: Vector)
    requires |vs| > 0
    requires forall i :: 0 <= i < |vs| ==> vs[i] == v
    ensures WellFormedBatch(vs) && Mean(vs) == v
  {
    var m := Mean(vs);
    forall j | 0 <= j < |v| ensures m[j] == v[j] {
      ColumnSumOfCopies(vs, v, j);
      CancelFactor(m[j], v[j], |vs| as real);
    }
  }

  lemma CancelFactor(x: real, y: real, n: real)
    requires n > 0.0 && x * n == n * y
    ensures x == y
  {}

  lemma {:induction false} ColumnSumBounds(vs: seq<Vector>, j: nat, lo: real, hi: real)
    requires forall i :: 0 <= i < |vs| ==> j < |vs[i]| && lo <= vs[i][j] <= hi
    ensures (|vs| as real) * lo <= ColumnSum(vs, j) <= (|vs| as real) * hi
  {
    if vs != [] {
      ColumnSumBounds(vs[1..], j, lo, hi);
    }
  }

  lemma ScaledBetween(x: real, n: real, lo: real, hi: real, s: real)
    requires n > 0.0 && x * n == s && n * lo <= s <= n * hi
    ensures lo <= x <= hi
  {}

  /** Entry `j` of the mean lies within any bounds of column `j`. */
  lemma MeanBounds(vs: seq<Vector>, j: nat, lo: real, hi: real)
    requires WellFormedBatch(vs) && j < |vs[0]|
    requires forall i :: 0 <= i < |vs| ==> lo <= vs[i][j] <= hi
    ensures lo <= Mean(vs)[j] <= hi
  {
    ColumnSumBounds(vs, j, lo, hi);
    ScaledBetween(Mean(vs)[j], |vs| as real, lo, hi, ColumnSum(vs, j));
  }
}
