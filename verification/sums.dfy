/** Finite sums of reals, and the bus-wise aggregation that the nodal energy
    balance is built from: for every bus, the sum of the values (productions,
    line flows) whose key (the unit's bus, the line's end) is that bus. */
module Sums {

  /** Sum of a sequence, accumulated from the back. */
  function Sum(xs: seq<real>): real
    decreases |xs|
  {
    if |xs| == 0 then 0.0 else Sum(xs[..|xs| - 1]) + xs[|xs| - 1]
  }

  /** n copies of c. */
  function Constant(n: nat, c: real): seq<real>
  {
    seq(n, _ => c)
  }

  /** Element-wise sum of two vectors of the same length. */
  function Plus(a: seq<real>, b: seq<real>): seq<real>
    requires |a| == |b|
  {
    seq(|a|, i requires 0 <= i < |a| => a[i] + b[i])
  }

  /** Every element multiplied by c. */
  function Scale(c: real, xs: seq<real>): seq<real>
  {
    seq(|xs|, i requires 0 <= i < |xs| => c * xs[i])
  }

  /** The length-n vector holding v at position k and 0 elsewhere. */
  function Indicator(n: nat, k: nat, v: real): seq<real>
  {
    seq(n, i => if i == k then v else 0.0)
  }

  predicate NonNegative(xs: seq<real>)
  {
    forall i | 0 <= i < |xs| :: xs[i] >= 0.0
  }

  predicate KeysBelow(keys: seq<nat>, n: nat)
  {
    forall i | 0 <= i < |keys| :: keys[i] < n
  }

  /** Sum of vals[i] over the positions i whose key is b (the filtered sums
      `sum(x[i] for i in ... if key[i] == b)` of the balance constraint). */
  function SumWhere(keys: seq<nat>, vals: seq<real>, b: nat): real
    requires |keys| == |vals|
    decreases |keys|
  {
    if |keys| == 0 then 0.0
    else
      var n := |keys| - 1;
      SumWhere(keys[..n], vals[..n], b) + (if keys[n] == b then vals[n] else 0.0)
  }

  /** The filtered sum for every bus 0 .. nb-1. */
  function BusTotals(keys: seq<nat>, vals: seq<real>, nb: nat): seq<real>
    requires |keys| == |vals|
  {
    seq(nb, b requires 0 <= b => SumWhere(keys, vals, b))
  }

  lemma {:induction false} SumConstant(n: nat, c: real)
    ensures Sum(Constant(n, c)) == n as real * c
  {
    if n > 0 {
      assert Constant(n, c)[..n - 1] == Constant(n - 1, c);
      SumConstant(n - 1, c);
    }
  }

  /** Summation is additive. */
  lemma {:induction false} SumPlus(a: seq<real>, b: seq<real>)
    requires |a| == |b|
    ensures Sum(Plus(a, b)) == Sum(a) + Sum(b)
    decreases |a|
  {
    if |a| > 0 {
      var n := |a| - 1;
      assert Plus(a, b)[..n] == Plus(a[..n], b[..n]);
      SumPlus(a[..n], b[..n]);
    }
  }

  /** Summation is homogeneous: a common factor comes out of the sum. */
  lemma {:induction false} SumScale(c: real, xs: seq<real>)
    ensures Sum(Scale(c, xs)) == c * Sum(xs)
    decreases |xs|
  {
    if |xs| > 0 {
      var n := |xs| - 1;
      forall i | 0 <= i < n
        ensures Scale(c, xs)[..n][i] == Scale(c, xs[..n])[i]
      {
      }
      assert Scale(c, xs)[..n] == Scale(c, xs[..n]);
      SumScale(c, xs[..n]);
    }
  }

  lemma {:induction false} SumNonNegative(xs: seq<real>)
    requires NonNegative(xs)
    ensures Sum(xs) >= 0.0
    decreases |xs|
  {
    if |xs| > 0 {
      SumNonNegative(xs[..|xs| - 1]);
    }
  }

  lemma {:induction false} SumIndicator(n: nat, k: nat, v: real)
    ensures Sum(Indicator(n, k, v)) == if k < n then v else 0.0
  {
    if n > 0 {
      assert Indicator(n, k, v)[..n - 1] == Indicator(n - 1, k, v);
      SumIndicator(n - 1, k, v);
    }
  }

  /** A single value counts towards its own key only. */
  lemma SumWhereSingle(k: nat, v: real, b: nat)
    ensures SumWhere([k], [v], b) == if k == b then v else 0.0
  {
    assert [k][..0] == [] && [v][..0] == [];
  }

  /** A filtered sum over all-zero values is zero, whatever the keys. */
  lemma {:induction false} SumWhereZero(keys: seq<nat>, vals: seq<real>, b: nat)
    requires |keys| == |vals|
    requires forall i | 0 <= i < |vals| :: vals[i] == 0.0
    ensures SumWhere(keys, vals, b) == 0.0
    decreases |keys|
  {
    if |keys| > 0 {
      SumWhereZero(keys[..|keys| - 1], vals[..|keys| - 1], b);
    }
  }

  /** Aggregating values by bus and then summing over all buses gives the
      plain total, provided every key names one of the buses: nothing is
      lost and nothing is counted twice. */
  lemma {:induction false} BusTotalsSum(keys: seq<nat>, vals: seq<real>, nb: nat)
    requires |keys| == |vals|
    requires KeysBelow(keys, nb)
    ensures Sum(BusTotals(keys, vals, nb)) == Sum(vals)
    decreases |keys|
  {
    if |keys| == 0 {
      assert BusTotals(keys, vals, nb) == Constant(nb, 0.0);
      SumConstant(nb, 0.0);
    } else {
      var n := |keys| - 1;
      var rest := BusTotals(keys[..n], vals[..n], nb);
      var last := Indicator(nb, keys[n], vals[n]);
      assert BusTotals(keys, vals, nb) == Plus(rest, last);
      BusTotalsSum(keys[..n], vals[..n], nb);
      SumPlus(rest, last);
      SumIndicator(nb, keys[n], vals[n]);
    }
  }
}
