/**
 First-improvement hill climbing over dispatch matrices. A candidate move takes
 a driver `j` not offered order `i` off its current order `k` and offers it
 order `i` instead; the move is kept only when the mean success rate over all
 orders strictly rises, and is otherwise undone. Sweeps over all orders repeat
 until a sweep gains no more than a small tolerance, at most 100 times.
 */
module DispatchOrder {
  import opened Assignment
  import opened SuccessRate

  /** The largest number of sweeps over all orders. */
  const MaxEpochs: nat := 100

  /** A sweep that raises the mean success rate by no more than this ends the search. */
  const Tolerance: real := 0.00000001

  /** The success rates of all orders under dispatch matrix `a`. */
  function Rates(prob: seq<seq<real>>, a: Matrix): seq<real>
    requires |prob| == |a| && forall x :: 0 <= x < |a| ==> |prob[x]| == |a[x]|
  {
    seq(|a|, x requires 0 <= x < |a| => Rate(prob[x], a[x]))
  }

  /**
   A consistent search state: every driver is offered exactly one order, the
   cached rates are those of the matrix, and the cached aggregate is their mean.
   */
  predicate Valid(prob: seq<seq<real>>, n: nat, m: nat, a: Matrix, sr: seq<real>, avg: real) {
    && n > 0
    && Shape(prob, n, m)
    && Shape(a, n, m)
    && OneOrderPerDriver(a, m)
    && sr == Rates(prob, a)
    && avg == Mean(sr)
  }

  /** With probabilities in [0, 1], every cached rate and their mean lie in [0, 1]. */
  lemma AggregateBounds(prob: seq<seq<real>>, n: nat, m: nat, a: Matrix, sr: seq<real>, avg: real)
    requires Valid(prob, n, m, a, sr, avg) && ProbabilityTable(prob)
    ensures forall x :: 0 <= x < n ==> 0.0 <= sr[x] <= 1.0
    ensures 0.0 <= avg <= 1.0
  {
    forall x | 0 <= x < n
      ensures 0.0 <= sr[x] <= 1.0
    {
      RateBounds(prob[x], a[x]);
    }
    MeanBounds(sr, 0.0, 1.0);
  }

  /** Moving driver `j` onto order `i` would raise the mean success rate above `avg`. */
  predicate Improves(prob: seq<seq<real>>, m: nat, a: Matrix, avg: real, j: nat, i: nat)
    requires Shape(a, |a|, m) && Shape(prob, |a|, m) && |a| > 0 && j < m
  {
    Mean(Rates(prob, Reassign(a, j, i))) > avg
  }

  /** No single move of a driver onto an order it is not offered raises the mean above `avg`. */
  predicate LocalOptimum(prob: seq<seq<real>>, m: nat, a: Matrix, avg: real)
    requires Shape(a, |a|, m) && Shape(prob, |a|, m) && |a| > 0
  {
    forall x, y :: 0 <= x < |a| && 0 <= y < m && !a[x][y] ==> !Improves(prob, m, a, avg, y, x)
  }

  /**
   One candidate move of driver `j` onto order `i`: it is committed exactly when
   it strictly raises the mean success rate; a rejected move leaves matrix,
   rates and aggregate exactly as they were. Either way only the rates of `i`
   and of the driver's former order may differ afterwards. The branch for a
   driver offered no order cannot be taken, since every driver is offered one.
   */
  method TryMove(prob: seq<seq<real>>, n: nat, m: nat, a: Matrix, sr: seq<real>, avg: real, i: nat, j: nat)
    returns (a': Matrix, sr': seq<real>, avg': real, committed: bool)
    requires Valid(prob, n, m, a, sr, avg) && i < n && j < m && !a[i][j]
    ensures Valid(prob, n, m, a', sr', avg')
    ensures committed <==> Improves(prob, m, a, avg, j, i)
    ensures committed ==> a' == Reassign(a, j, i) && avg' > avg
    ensures !committed ==> a' == a && sr' == sr && avg' == avg
    ensures forall x :: 0 <= x < n && x != i && !a[x][j] ==> sr'[x] == sr[x]
  {
    var ks := OrdersOfDriver(a, m, j);
    OneOrderHasOwner(a, m);
    ghost var o := Owner(a, m);
    OwnerLookup(a, m, o, j);
    if |ks| == 0 {
      assert false;
    } else {
      var k := ks[0];
      var preI, preK := sr[i], sr[k];
      a' := a[i := a[i][j := true]];
      a' := a'[k := a'[k][j := false]];
      MoveIsReassign(a, m, o, j, i);
      ReassignMovesOneDriver(a, m, o, j, i);
      var rateI := CalcSr(prob, a', i);
      var rateK := CalcSr(prob, a', k);
      sr' := sr[i := rateI][k := rateK];
      RatesAfterMove(prob, m, a, o, sr, j, i);
      var post := Mean(sr');
      if post > avg {
        avg' := post;
        committed := true;
        // The writes to B[j][i] and B[j][k] go through the transposed view of A
        // and repeat the tentative writes.
        RewriteCell(a', i, j);
        a' := a'[i := a'[i][j := true]];
        RewriteCell(a', k, j);
        a' := a'[k := a'[k][j := false]];
      } else {
        sr' := sr'[i := preI];
        sr' := sr'[k := preK];
        UndoTwoUpdates(sr, i, k, rateI, rateK);
        a' := a'[i := a'[i][j := false]];
        a' := a'[k := a'[k][j := true]];
        UndoMove(a, j, i, k);
        avg' := avg;
        committed := false;
      }
    }
  }

  /** Writing a cell the value it already holds leaves the matrix as it was. */
  lemma RewriteCell(a: Matrix, x: nat, y: nat)
    requires x < |a| && y < |a[x]|
    ensures a[x := a[x][y := a[x][y]]] == a
  {
    assert a[x][y := a[x][y]] == a[x];
  }

  /** Writing back the old values of two distinct entries restores the sequence. */
  lemma UndoTwoUpdates<T>(s: seq<T>, i: nat, k: nat, x: T, y: T)
    requires i < |s| && k < |s| && i != k
    ensures s[i := x][k := y][i := s[i]][k := s[k]] == s
  {
  }

  /** Reverting a tentative move of driver `j` from order `k` to order `i` restores the matrix. */
  lemma UndoMove(a: Matrix, j: nat, i: nat, k: nat)
    requires i < |a| && k < |a| && i != k && j < |a[i]| && j < |a[k]|
    requires !a[i][j] && a[k][j]
    ensures var moved := a[i := a[i][j := true]][k := a[k][j := false]];
            moved[i := moved[i][j := false]][k := moved[i := moved[i][j := false]][k][j := true]] == a
  {
    assert a[i][j := true][j := false] == a[i];
    assert a[k][j := false][j := true] == a[k];
  }

  /** After a move, only the rates of the two orders involved need recomputing. */
  lemma RatesAfterMove(prob: seq<seq<real>>, m: nat, a: Matrix, o: seq<nat>, sr: seq<real>, j: nat, i: nat)
    requires Shape(a, |a|, m) && Shape(prob, |a|, m) && Represents(a, m, o)
    requires j < m && i < |a| && o[j] != i
    requires sr == Rates(prob, a)
    ensures var r := Reassign(a, j, i);
            Rates(prob, r) == sr[i := Rate(prob[i], r[i])][o[j] := Rate(prob[o[j]], r[o[j]])]
  {
    var r := Reassign(a, j, i);
    forall x | 0 <= x < |a| && x != i && x != o[j]
      ensures r[x] == a[x]
    {
      assert a[x][j := false] == a[x];
    }
  }

  /** Setting cell (i, j) and clearing cell (k, j), where k is driver j's order, is the reassignment of j to i. */
  lemma MoveIsReassign(a: Matrix, m: nat, o: seq<nat>, j: nat, i: nat)
    requires Shape(a, |a|, m) && Represents(a, m, o) && j < m && i < |a| && o[j] != i
    ensures a[i := a[i][j := true]][o[j] := a[o[j]][j := false]] == Reassign(a, j, i)
  {
    var k := o[j];
    var moved := a[i := a[i][j := true]][k := a[k][j := false]];
    forall x | 0 <= x < |a|
      ensures moved[x] == Reassign(a, j, i)[x]
    {
      if x != i && x != k {
        assert a[x][j := false] == a[x];
      }
    }
  }

  /**
   Reassigning driver `u[t]` to order `i` keeps every later driver of the
   increasing list `u` off order `i`.
   */
  lemma ReassignKeepsLaterDrivers(a: Matrix, m: nat, u: seq<nat>, t: nat, i: nat)
    requires Shape(a, |a|, m) && i < |a| && t < |u| && u[t] < m
    requires StrictlyIncreasing(u)
    requires forall s :: t <= s < |u| ==> u[s] < m && !a[i][u[s]]
    ensures forall s :: t < s < |u| ==> !Reassign(a, u[t], i)[i][u[s]]
  {
    forall s | t < s < |u|
      ensures !Reassign(a, u[t], i)[i][u[s]]
    {
      assert u[t] < u[s];
    }
  }

  /**
   The tries for order `i`: every driver not offered `i` when the order's turn
   comes is tried in increasing driver order, each against the state the
   previous try left. The aggregate never decreases; if it is unchanged, no move
   was committed and none of the drivers tried would have improved it.
   */
  method SweepOrder(prob: seq<seq<real>>, n: nat, m: nat, a: Matrix, sr: seq<real>, avg: real, i: nat)
    returns (a': Matrix, sr': seq<real>, avg': real)
    requires Valid(prob, n, m, a, sr, avg) && i < n
    ensures Valid(prob, n, m, a', sr', avg')
    ensures avg' >= avg
    ensures avg' == avg ==> a' == a && sr' == sr
    ensures avg' == avg ==> forall y {:trigger Improves(prob, m, a, avg, y, i)} :: 0 <= y < m && !a[i][y] ==> !Improves(prob, m, a, avg, y, i)
  {
    a', sr', avg' := a, sr, avg;
    var u := FindUndispatch(a, i);
    for t := 0 to |u|
      invariant Valid(prob, n, m, a', sr', avg')
      invariant avg' >= avg
      invariant forall s :: t <= s < |u| ==> !a'[i][u[s]]
      invariant avg' == avg ==> a' == a && sr' == sr
      invariant avg' == avg ==> forall s {:trigger Improves(prob, m, a, avg, u[s], i)} :: 0 <= s < t ==> !Improves(prob, m, a, avg, u[s], i)
    {
      var j := u[t];
      ghost var before, gainBefore := a', avg';
      var committed;
      a', sr', avg', committed := TryMove(prob, n, m, a', sr', avg', i, j);
      if avg' == avg {
        assert !committed && before == a && gainBefore == avg;
        assert !Improves(prob, m, a, avg, u[t], i);
      }
      if committed {
        ReassignKeepsLaterDrivers(before, m, u, t, i);
      }
    }
    if avg' == avg {
      NoneOfListImproves(prob, m, a, avg, i, u);
    }
  }

  /** If no driver of the list of drivers not offered order `i` improves, no such driver does. */
  lemma NoneOfListImproves(prob: seq<seq<real>>, m: nat, a: Matrix, avg: real, i: nat, u: seq<nat>)
    requires Shape(a, |a|, m) && Shape(prob, |a|, m) && i < |a|
    requires u == FindUndispatch(a, i)
    requires forall s {:trigger Improves(prob, m, a, avg, u[s], i)} :: 0 <= s < |u| ==> u[s] < m && !Improves(prob, m, a, avg, u[s], i)
    ensures forall y {:trigger Improves(prob, m, a, avg, y, i)} :: 0 <= y < m && !a[i][y] ==> !Improves(prob, m, a, avg, y, i)
  {
    forall y | 0 <= y < m && !a[i][y]
      ensures !Improves(prob, m, a, avg, y, i)
    {
      assert y in u;
      var s :| 0 <= s < |u| && u[s] == y;
      assert !Improves(prob, m, a, avg, u[s], i);
    }
  }

  /**
   One sweep over the orders in index order, each order's tries seeing the moves
   committed for the orders before it. The aggregate never decreases; a sweep
   that leaves it unchanged committed no move, left the state as it was, and
   shows the state to be a local optimum.
   */
  method Epoch(prob: seq<seq<real>>, n: nat, m: nat, a: Matrix, sr: seq<real>, avg: real)
    returns (a': Matrix, sr': seq<real>, avg': real)
    requires Valid(prob, n, m, a, sr, avg)
    ensures Valid(prob, n, m, a', sr', avg')
    ensures avg' >= avg
    ensures avg' == avg ==> a' == a && sr' == sr && LocalOptimum(prob, m, a, avg)
  {
    a', sr', avg' := a, sr, avg;
    for i := 0 to n
      invariant Valid(prob, n, m, a', sr', avg')
      invariant avg' >= avg
      invariant avg' == avg ==> a' == a && sr' == sr
      invariant avg' == avg ==>
        forall x, y :: 0 <= x < i && 0 <= y < m && !a[x][y] ==> !Improves(prob, m, a, avg, y, x)
    {
      a', sr', avg' := SweepOrder(prob, n, m, a', sr', avg', i);
    }
  }

  /** The result of a search: the final matrix, its rates and mean, and the gain of every sweep run. */
  datatype Run = Run(dispatch: Matrix, sr: seq<real>, avgSr: real, gains: seq<real>)

  /**
   The whole search for `n` orders and `m` drivers with acceptance table `prob`:
   start with every driver on order 0, then sweep until a sweep gains at most
   the tolerance or the sweep budget is spent. Fails, like building the initial
   matrix, when there is no order.
   */
  method HillClimbing(n: nat, m: nat, prob: seq<seq<real>>) returns (r: Result<Run>)
    requires Shape(prob, n, m)
    ensures r.Failure? <==> n == 0
    ensures r.Success? ==> Valid(prob, n, m, r.value.dispatch, r.value.sr, r.value.avgSr)
    ensures r.Success? ==> 1 <= |r.value.gains| <= MaxEpochs
    ensures r.Success? ==> forall e :: 0 <= e < |r.value.gains| ==> r.value.gains[e] >= 0.0
    ensures r.Success? ==> forall e :: 0 <= e < |r.value.gains| - 1 ==> r.value.gains[e] > Tolerance
    ensures r.Success? && |r.value.gains| < MaxEpochs ==> r.value.gains[|r.value.gains| - 1] <= Tolerance
    ensures r.Success? ==>
      r.value.avgSr == Mean(Rates(prob, InitDispatchMat(n, m).value)) + Sum(r.value.gains)
    ensures r.Success? && r.value.gains[|r.value.gains| - 1] == 0.0 ==>
      LocalOptimum(prob, m, r.value.dispatch, r.value.avgSr)
  {
    var init := InitDispatchMat(n, m);
    if init.Failure? {
      return Failure(init.error);
    }
    var a := init.value;
    var sr: seq<real> := [];
    for i := 0 to n
      invariant |sr| == i
      invariant forall x :: 0 <= x < i ==> sr[x] == Rate(prob[x], a[x])
    {
      var rate := CalcSr(prob, a, i);
      sr := sr + [rate];
    }
    assert sr == Rates(prob, a);
    var avg := Mean(sr);
    ghost var start := avg;
    var gains: seq<real> := [];
    var epoch := 0;
    while epoch < MaxEpochs
      invariant epoch == |gains| <= MaxEpochs
      invariant Valid(prob, n, m, a, sr, avg)
      invariant forall e :: 0 <= e < |gains| ==> gains[e] > Tolerance
      invariant avg == start + Sum(gains)
      decreases MaxEpochs - epoch
    {
      var pre := avg;
      ghost var previous := a;
      a, sr, avg := Epoch(prob, n, m, a, sr, avg);
      assert (gains + [avg - pre])[..|gains|] == gains;
      gains := gains + [avg - pre];
      epoch := epoch + 1;
      if avg - pre <= Tolerance {
        assert avg - pre == 0.0 ==> previous == a;
        break;
      }
    }
    r := Success(Run(a, sr, avg, gains));
  }
}
