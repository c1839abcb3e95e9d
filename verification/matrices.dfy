/** Rectangular tables of reals (a row per entity or per period), their
    columns, transposition, row totals and weighted totals. */
module Matrices {
  import opened Sums

  /** m has exactly `rows` rows of exactly `cols` entries each. */
  predicate Matrix(m: seq<seq<real>>, rows: nat, cols: nat)
  {
    |m| == rows && forall i | 0 <= i < rows :: |m[i]| == cols
  }

  predicate NonNegativeMatrix(m: seq<seq<real>>)
  {
    forall i, j | 0 <= i < |m| && 0 <= j < |m[i]| :: m[i][j] >= 0.0
  }

  function ZeroMatrix(rows: nat, cols: nat): seq<seq<real>>
  {
    seq(rows, _ => Constant(cols, 0.0))
  }

  /** Column j: the j-th entry of every row. */
  function Column(m: seq<seq<real>>, j: nat): seq<real>
    requires forall i | 0 <= i < |m| :: j < |m[i]|
  {
    seq(|m|, i requires 0 <= i < |m| => m[i][j])
  }

  /** The cols x |m| table whose row j is column j of m. */
  function Transpose(m: seq<seq<real>>, cols: nat): (r: seq<seq<real>>)
    requires Matrix(m, |m|, cols)
    ensures Matrix(r, cols, |m|)
    ensures forall j, i | 0 <= j < cols && 0 <= i < |m| :: r[j][i] == m[i][j]
  {
    seq(cols, j requires 0 <= j < cols => Column(m, j))
  }

  /** The total of every row. */
  function RowSums(m: seq<seq<real>>): seq<real>
  {
    seq(|m|, i requires 0 <= i < |m| => Sum(m[i]))
  }

  /** The sum of every entry of m. */
  function SumAll(m: seq<seq<real>>): real
  {
    Sum(RowSums(m))
  }

  /** Sum over rows i of w[i] * m[i][j] over all j: the shape of the cost
      definition, one price per row (per unit, or the same price per bus). */
  function WeightedTotal(w: seq<real>, m: seq<seq<real>>): real
    requires |w| == |m|
    decreases |m|
  {
    if |m| == 0 then 0.0
    else
      var n := |m| - 1;
      WeightedTotal(w[..n], m[..n]) + Sum(Scale(w[n], m[n]))
  }

  /** Transposing twice gives the table back. */
  lemma TransposeTwice(m: seq<seq<real>>, cols: nat)
    requires Matrix(m, |m|, cols)
    ensures Transpose(Transpose(m, cols), |m|) == m
  {
    var r := Transpose(Transpose(m, cols), |m|);
    forall i | 0 <= i < |m|
      ensures r[i] == m[i]
    {
    }
  }

  /** Summing the transposed table row by row gives the same grand total:
      the order of a finite double sum does not matter. */
  lemma {:induction false} SumAllTranspose(m: seq<seq<real>>, cols: nat)
    requires Matrix(m, |m|, cols)
    ensures SumAll(Transpose(m, cols)) == SumAll(m)
    decreases |m|
  {
    if |m| == 0 {
      assert RowSums(Transpose(m, cols)) == Constant(cols, 0.0);
      SumConstant(cols, 0.0);
    } else {
      var n := |m| - 1;
      var front := m[..n];
      var t := Transpose(m, cols);
      var t' := Transpose(front, cols);
      forall j | 0 <= j < cols
        ensures RowSums(t)[j] == Plus(RowSums(t'), m[n])[j]
      {
        assert t[j][..n] == t'[j];
      }
      assert RowSums(t) == Plus(RowSums(t'), m[n]);
      SumPlus(RowSums(t'), m[n]);
      SumAllTranspose(front, cols);
      assert RowSums(m)[..n] == RowSums(front);
    }
  }

  /** With one price c for every row, the weighted total is c times the sum
      of all entries. */
  lemma {:induction false} WeightedTotalUniform(c: real, m: seq<seq<real>>)
    ensures WeightedTotal(Constant(|m|, c), m) == c * SumAll(m)
    decreases |m|
  {
    if |m| > 0 {
      var n := |m| - 1;
      assert Constant(|m|, c)[..n] == Constant(n, c);
      WeightedTotalUniform(c, m[..n]);
      SumScale(c, m[n]);
      assert RowSums(m)[..n] == RowSums(m[..n]);
    }
  }

  /** Non-negative prices on non-negative quantities give a non-negative
      total. */
  lemma {:induction false} WeightedTotalNonNegative(w: seq<real>, m: seq<seq<real>>)
    requires |w| == |m|
    requires NonNegative(w)
    requires NonNegativeMatrix(m)
    ensures WeightedTotal(w, m) >= 0.0
    decreases |m|
  {
    if |m| > 0 {
      var n := |m| - 1;
      WeightedTotalNonNegative(w[..n], m[..n]);
      SumScale(w[n], m[n]);
      SumNonNegative(m[n]);
      assert w[n] * Sum(m[n]) >= 0.0;
    }
  }

  /** Nothing produced costs nothing, whatever the prices. */
  lemma {:induction false} WeightedTotalZero(w: seq<real>, rows: nat, cols: nat)
    requires |w| == rows
    ensures WeightedTotal(w, ZeroMatrix(rows, cols)) == 0.0
    decreases rows
  {
    if rows > 0 {
      var n := rows - 1;
      assert ZeroMatrix(rows, cols)[..n] == ZeroMatrix(n, cols);
      WeightedTotalZero(w[..n], n, cols);
      SumScale(w[n], Constant(cols, 0.0));
      SumConstant(cols, 0.0);
    }
  }
}
