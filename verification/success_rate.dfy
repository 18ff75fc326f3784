/**
 Success rates of orders. An order is served when at least one of the drivers
 offered it accepts, each driver `j` independently with probability `p[j]`.
 Probabilities are exact reals; the source's floating-point rounding is not
 modelled.
 */
module SuccessRate {
  import opened Assignment

  /** Every probability of the table lies in [0, 1]. */
  predicate ProbabilityTable(prob: seq<seq<real>>) {
    forall x, y :: 0 <= x < |prob| && 0 <= y < |prob[x]| ==> 0.0 <= prob[x][y] <= 1.0
  }

  predicate ProbabilityRow(p: seq<real>) {
    forall y :: 0 <= y < |p| ==> 0.0 <= p[y] <= 1.0
  }

  /**
   Real multiplication behind a function name, so that the solver meets
   products only where a proof unfolds them.
   */
  function Mul(x: real, y: real): real {
    x * y
  }

  /** Probability that none of the drivers `js` accepts: the product of `1 - p[j]` over `js`. */
  function Unaccept(p: seq<real>, js: seq<nat>): real
    requires forall t :: 0 <= t < |js| ==> js[t] < |p|
  {
    if |js| == 0 then 1.0
    else Mul(Unaccept(p, js[..|js| - 1]), 1.0 - p[js[|js| - 1]])
  }

  /**
   Probability that no driver offered the order accepts: the product over all
   drivers `j` of `(1 - p[j])` raised to the 0/1 dispatch flag `row[j]`, so a
   driver not offered the order contributes the factor 1.
   */
  function Unaccepted(p: seq<real>, row: seq<bool>): real
    requires |p| == |row|
  {
    if |row| == 0 then 1.0
    else Mul(Unaccepted(p[..|p| - 1], row[..|row| - 1]), if row[|row| - 1] then 1.0 - p[|p| - 1] else 1.0)
  }

  /** Success rate of an order with acceptance probabilities `p` and dispatch row `row`. */
  function Rate(p: seq<real>, row: seq<bool>): real
    requires |p| == |row|
  {
    1.0 - Unaccepted(p, row)
  }

  /**
   The success rate of order `i` computed as the source does, a running product
   over every driver; it is one minus the product of `1 - prob[i][j]` over the
   drivers `j` offered the order.
   */
  method CalcSr(prob: seq<seq<real>>, a: Matrix, i: nat) returns (sr: real)
    requires i < |prob| && i < |a| && |prob[i]| == |a[i]|
    ensures sr == Rate(prob[i], a[i])
    ensures sr == 1.0 - Unaccept(prob[i], Indices(a[i], true))
  {
    var p, row := prob[i], a[i];
    var unaccept := 1.0;
    for j := 0 to |row|
      invariant unaccept == Unaccept(p, Indices(row[..j], true))
    {
      IndicesSnoc(row, j, true);
      if row[j] {
        UnacceptSnoc(p, Indices(row[..j], true), j);
      } else {
        assert Indices(row[..j + 1], true) == Indices(row[..j], true);
      }
      unaccept := Mul(unaccept, if row[j] then 1.0 - p[j] else 1.0);
    }
    assert row[..|row|] == row;
    RateOverAssigned(p, row);
    sr := 1.0 - unaccept;
  }

  /** Over the first `n` drivers, the masked product equals the product over the drivers offered the order. */
  lemma {:induction false} UnacceptedOverAssigned(p: seq<real>, row: seq<bool>, n: nat)
    requires |p| == |row| && n <= |row|
    ensures Unaccepted(p[..n], row[..n]) == Unaccept(p, Indices(row[..n], true))
  {
    if n > 0 {
      UnacceptedOverAssigned(p, row, n - 1);
      assert p[..n][..n - 1] == p[..n - 1];
      assert row[..n][..n - 1] == row[..n - 1];
      IndicesSnoc(row, n - 1, true);
      var before := Indices(row[..n - 1], true);
      if row[n - 1] {
        UnacceptSnoc(p, before, n - 1);
      } else {
        assert Indices(row[..n], true) == before;
      }
    }
  }

  /** A success rate is one minus the product of `1 - p[j]` over the drivers `j` offered the order. */
  lemma RateOverAssigned(p: seq<real>, row: seq<bool>)
    requires |p| == |row|
    ensures Rate(p, row) == 1.0 - Unaccept(p, Indices(row, true))
  {
    UnacceptedOverAssigned(p, row, |row|);
    assert p[..|row|] == p && row[..|row|] == row;
  }

  /** Appending a driver to the list multiplies the product by its factor. */
  lemma UnacceptSnoc(p: seq<real>, js: seq<nat>, j: nat)
    requires forall t :: 0 <= t < |js| ==> js[t] < |p|
    requires j < |p|
    ensures Unaccept(p, js + [j]) == Mul(Unaccept(p, js), 1.0 - p[j])
  {
    assert (js + [j])[..|js|] == js;
  }

  lemma MulUnit(x: real, y: real)
    requires 0.0 <= x && 0.0 <= y <= 1.0
    ensures 0.0 <= Mul(x, y) <= x
  {
  }

  lemma MulSwap(x: real, c: real, f: real)
    ensures Mul(Mul(x, c), f) == Mul(Mul(x, f), c)
  {
  }

  /** Two drivers accepting with probability 1/2 each serve the order with probability 3/4. */
  lemma RateExample()
    ensures Rate([0.5, 0.5], [true, true]) == 0.75
    ensures Rate([0.5, 0.5], [true, false]) == 0.5
  {
    var p := [0.5, 0.5];
    assert p[..1] == [0.5] && p[..1][..0] == [];
    assert [true, true][..1] == [true] && [true, false][..1] == [true] && [true][..0] == [];
    assert Unaccepted([0.5], [true]) == 0.5;
  }

  /** With probabilities in [0, 1], a success rate is a probability. */
  lemma {:induction false} RateBounds(p: seq<real>, row: seq<bool>)
    requires |p| == |row| && ProbabilityRow(p)
    ensures 0.0 <= Rate(p, row) <= 1.0
  {
    if |row| > 0 {
      var last := |row| - 1;
      RateBounds(p[..last], row[..last]);
      MulUnit(Unaccepted(p[..last], row[..last]), if row[last] then 1.0 - p[last] else 1.0);
    }
  }

  /** An order offered to no driver has success rate 0 (the empty product is 1). */
  lemma {:induction false} RateOfUnservedOrder(p: seq<real>, row: seq<bool>)
    requires |p| == |row|
    requires forall y :: 0 <= y < |row| ==> !row[y]
    ensures Rate(p, row) == 0.0
  {
    if |row| > 0 {
      RateOfUnservedOrder(p[..|row| - 1], row[..|row| - 1]);
    }
  }

  /**
   Offering the order to driver `j` as well turns success rate `s` into
   `1 - (1 - s) * (1 - p[j])`; taking the driver away again is the inverse.
   */
  lemma {:induction false} AddDriver(p: seq<real>, row: seq<bool>, j: nat)
    requires |p| == |row| && j < |row| && !row[j]
    ensures 1.0 - Rate(p, row[j := true]) == Mul(1.0 - Rate(p, row), 1.0 - p[j])
    ensures row[j := true][j := false] == row
  {
    var last := |row| - 1;
    var added := row[j := true];
    var f := if row[last] then 1.0 - p[last] else 1.0;
    if j == last {
      assert added[..last] == row[..last];
    } else {
      assert added[..last] == row[..last][j := true];
      AddDriver(p[..last], row[..last], j);
      MulSwap(Unaccepted(p[..last], row[..last]), 1.0 - p[j], f);
    }
  }

  /** With probabilities in [0, 1], offering an order to one more driver never lowers its success rate. */
  lemma RateMonotone(p: seq<real>, row: seq<bool>, j: nat)
    requires |p| == |row| && ProbabilityRow(p) && j < |row| && !row[j]
    ensures Rate(p, row) <= Rate(p, row[j := true])
  {
    AddDriver(p, row, j);
    RateBounds(p, row);
    MulUnit(1.0 - Rate(p, row), 1.0 - p[j]);
  }

  /** Sum of a list of reals. */
  function Sum(s: seq<real>): real {
    if |s| == 0 then 0.0 else Sum(s[..|s| - 1]) + s[|s| - 1]
  }

  /** Arithmetic mean, the aggregate success rate of the dispatcher. */
  function Mean(s: seq<real>): real
    requires |s| > 0
  {
    Sum(s) / (|s| as real)
  }

  /** Overwriting one entry changes the sum by the difference of the two values. */
  lemma {:induction false} SumUpdate(s: seq<real>, t: nat, v: real)
    requires t < |s|
    ensures Sum(s[t := v]) == Sum(s) - s[t] + v
  {
    var last := |s| - 1;
    assert s[t := v][..last] == if t < last then s[..last][t := v] else s[..last];
    if t < last {
      SumUpdate(s[..last], t, v);
    }
  }

  /** A sum of entries within [lo, hi] lies within [|s| * lo, |s| * hi]. */
  lemma {:induction false} SumBounds(s: seq<real>, lo: real, hi: real)
    requires forall t :: 0 <= t < |s| ==> lo <= s[t] <= hi
    ensures (|s| as real) * lo <= Sum(s) <= (|s| as real) * hi
  {
    if |s| > 0 {
      SumBounds(s[..|s| - 1], lo, hi);
    }
  }

  /** The mean of entries within [lo, hi] lies within [lo, hi]. */
  lemma MeanBounds(s: seq<real>, lo: real, hi: real)
    requires |s| > 0
    requires forall t :: 0 <= t < |s| ==> lo <= s[t] <= hi
    ensures lo <= Mean(s) <= hi
  {
    SumBounds(s, lo, hi);
    var n := |s| as real;
    assert n * lo <= Sum(s) <= n * hi;
    assert Sum(s) / n >= (n * lo) / n;
    assert Sum(s) / n <= (n * hi) / n;
  }

  /**
   Replacing two distinct entries raises the mean exactly when it raises the
   sum of those two entries; an equal pair leaves the mean unchanged.
   */
  lemma MeanOfTwoUpdates(s: seq<real>, t: nat, u: nat, a: real, b: real)
    requires t < |s| && u < |s| && t != u
    ensures Mean(s[t := a][u := b]) > Mean(s) <==> a + b > s[t] + s[u]
    ensures Mean(s[t := a][u := b]) == Mean(s) <==> a + b == s[t] + s[u]
  {
    SumUpdate(s, t, a);
    SumUpdate(s[t := a], u, b);
    var n := |s| as real;
    var d := a + b - s[t] - s[u];
    assert Sum(s[t := a][u := b]) == Sum(s) + d;
    assert Mean(s[t := a][u := b]) == Mean(s) + d / n;
  }
}
