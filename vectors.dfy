/** Element-wise arithmetic on feature vectors: the column sums and the
    column mean that `tf.stack(vectors).mean(0)` computes. */
module Vectors {
  // `{:induction false}` switches off Dafny's automatic induction: the
  // lemmas that carry it state their inductive steps, if any, themselves.
  ghost predicate AllOfLength(vs: seq<seq<real>>, d: nat)
  {
    forall k :: 0 <= k < |vs| ==> |vs[k]| == d
  }

  /** The sum of column `j` over the rows `vs`. */
  function ColumnSum(vs: seq<seq<real>>, j: nat): real
    requires forall k :: 0 <= k < |vs| ==> j < |vs[k]|
  {
    if vs == [] then 0.0 else ColumnSum(vs[..|vs| - 1], j) + vs[|vs| - 1][j]
  }

  /** `tf.stack(vs).mean(0)`: the element-wise mean of equally long rows. */
  function Mean(vs: seq<seq<real>>, d: nat): (m: seq<real>)
    requires |vs| > 0 && AllOfLength(vs, d)
    ensures |m| == d
    ensures forall j :: 0 <= j < d ==> m[j] * |vs| as real == ColumnSum(vs, j)
  {
    seq(d, j requires 0 <= j < d => ColumnSum(vs, j) / |vs| as real)
  }

  /** `n` copies of a row sum, column by column, to `n` times the row. */
  lemma {:induction false} ColumnSumOfCopies(v: seq<real>, n: nat, j: nat)
    requires j < |v|
    ensures ColumnSum(seq(n, _ => v), j) == n as real * v[j]
  {
    if n > 0 {
      var copies := seq(n, _ => v);
      assert copies[..n - 1] == seq(n - 1, _ => v);
      ColumnSumOfCopies(v, n - 1, j);
      assert (n - 1) as real * v[j] + v[j] == n as real * v[j];
    }
  }

  /** The mean of any positive number of copies of a row is that row. */
  lemma {:induction false} MeanOfCopies(v: seq<real>, n: nat)
    requires n > 0
    ensures AllOfLength(seq(n, _ => v), |v|)
    ensures Mean(seq(n, _ => v), |v|) == v
  {
    var copies := seq(n, _ => v);
    forall j | 0 <= j < |v| ensures Mean(copies, |v|)[j] == v[j] {
      ColumnSumOfCopies(v, n, j);
      var x := v[j];
      assert n as real * x / n as real == x;
    }
  }
}
