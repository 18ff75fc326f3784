/**
 The dispatch matrix of the order dispatcher: `a[i][j]` is true when driver `j`
 is currently offered order `i`. Rows are orders, columns are drivers. The
 driver-by-order matrix B that the dispatcher keeps is a transposed view of
 the same storage, so it is modelled as `Column(a, j)` and never as separate
 state.
 */
module Assignment {

  /** The 0/1 order-by-driver matrix, one bool per cell. */
  type Matrix = seq<seq<bool>>

  /** Outcome of an operation that the source can abort with an exception. */
  datatype Result<T> = Success(value: T) | Failure(error: string)

  /** `a` has `n` rows (orders) of `m` cells (drivers) each. */
  predicate Shape<T>(a: seq<seq<T>>, n: nat, m: nat) {
    |a| == n && forall x :: 0 <= x < n ==> |a[x]| == m
  }

  predicate StrictlyIncreasing(r: seq<nat>) {
    forall s, t :: 0 <= s < t < |r| ==> r[s] < r[t]
  }

  /** The positions of `row` that hold `b`, in increasing order. */
  function Indices(row: seq<bool>, b: bool): (r: seq<nat>)
    ensures forall t :: 0 <= t < |r| ==> r[t] < |row|
  {
    if |row| == 0 then []
    else Indices(row[..|row| - 1], b) + (if row[|row| - 1] == b then [|row| - 1] else [])
  }

  /** `Indices(row, b)` lists exactly the positions holding `b`, each once, in increasing order. */
  lemma {:induction false} IndicesExact(row: seq<bool>, b: bool)
    ensures forall t :: 0 <= t < |Indices(row, b)| ==> row[Indices(row, b)[t]] == b
    ensures forall y {:trigger y in Indices(row, b)} :: 0 <= y < |row| && row[y] == b ==> y in Indices(row, b)
    ensures StrictlyIncreasing(Indices(row, b))
  {
    if |row| > 0 {
      var front := row[..|row| - 1];
      IndicesExact(front, b);
      assert forall y :: 0 <= y < |front| ==> front[y] == row[y];
    }
  }

  /** Extending a row by one cell extends its index list by at most that cell. */
  lemma IndicesSnoc(row: seq<bool>, n: nat, b: bool)
    requires n < |row|
    ensures Indices(row[..n + 1], b) == Indices(row[..n], b) + (if row[n] == b then [n] else [])
  {
    assert row[..n + 1][..n] == row[..n];
  }

  /** Column `j` of `a`: the orders driver `j` is offered, i.e. row `j` of B. */
  function Column(a: Matrix, j: nat): (c: seq<bool>)
    requires forall x :: 0 <= x < |a| ==> j < |a[x]|
    ensures |c| == |a|
    ensures forall x :: 0 <= x < |a| ==> c[x] == a[x][j]
  {
    seq(|a|, x requires 0 <= x < |a| => a[x][j])
  }

  /** Every driver is offered exactly one order: each column holds exactly one true. */
  predicate OneOrderPerDriver(a: Matrix, m: nat)
    requires Shape(a, |a|, m)
  {
    forall j :: 0 <= j < m ==> |Indices(Column(a, j), true)| == 1
  }

  /** `o` is a driver-to-order map that describes `a` exactly. */
  predicate Represents(a: Matrix, m: nat, o: seq<nat>)
    requires Shape(a, |a|, m)
  {
    && |o| == m
    && (forall y :: 0 <= y < m ==> o[y] < |a|)
    && (forall x, y :: 0 <= x < |a| && 0 <= y < m ==> (a[x][y] <==> o[y] == x))
  }

  /** A strictly increasing sequence all of whose elements equal `v` has at most one element. */
  lemma IncreasingConstant(r: seq<nat>, v: nat)
    requires StrictlyIncreasing(r)
    requires forall t :: 0 <= t < |r| ==> r[t] == v
    ensures |r| <= 1
  {
    if |r| > 0 {
      IncreasingSpan(r);
      assert r[0] == v && r[|r| - 1] == v;
    }
  }

  /** The last element of a strictly increasing sequence is at least its length minus one above the first. */
  lemma {:induction false} IncreasingSpan(r: seq<nat>)
    requires StrictlyIncreasing(r) && |r| > 0
    ensures r[|r| - 1] >= r[0] + |r| - 1
  {
    if |r| > 1 {
      var front := r[..|r| - 1];
      assert StrictlyIncreasing(front);
      IncreasingSpan(front);
      assert r[|r| - 2] < r[|r| - 1];
    }
  }

  /** With a driver-to-order map, the list B gives for driver `j` is that one order. */
  lemma OwnerLookup(a: Matrix, m: nat, o: seq<nat>, j: nat)
    requires Shape(a, |a|, m) && Represents(a, m, o) && j < m
    ensures Indices(Column(a, j), true) == [o[j]]
  {
    var c := Column(a, j);
    var r := Indices(c, true);
    IndicesExact(c, true);
    assert c[o[j]];
    assert o[j] in r;
    forall t | 0 <= t < |r|
      ensures r[t] == o[j]
    {
      assert c[r[t]];
    }
    IncreasingConstant(r, o[j]);
  }

  lemma RepresentedHasOneOrder(a: Matrix, m: nat, o: seq<nat>)
    requires Shape(a, |a|, m) && Represents(a, m, o)
    ensures OneOrderPerDriver(a, m)
  {
    forall j | 0 <= j < m
      ensures |Indices(Column(a, j), true)| == 1
    {
      OwnerLookup(a, m, o, j);
    }
  }

  /** The driver-to-order map read off a matrix with one order per driver. */
  function Owner(a: Matrix, m: nat): seq<nat>
    requires Shape(a, |a|, m) && OneOrderPerDriver(a, m)
  {
    seq(m, j requires 0 <= j < m => Indices(Column(a, j), true)[0])
  }

  /** One order per driver holds exactly when a driver-to-order map describes the matrix. */
  lemma OneOrderHasOwner(a: Matrix, m: nat)
    requires Shape(a, |a|, m) && OneOrderPerDriver(a, m)
    ensures Represents(a, m, Owner(a, m))
  {
    var o := Owner(a, m);
    forall x, y | 0 <= x < |a| && 0 <= y < m
      ensures a[x][y] <==> o[y] == x
    {
      var r := Indices(Column(a, y), true);
      IndicesExact(Column(a, y), true);
      assert |r| == 1 && o[y] == r[0];
      if a[x][y] {
        assert Column(a, y)[x];
        assert x in r;
      }
    }
  }

  /**
   The initial dispatch matrix: every driver is offered order 0. Building the
   zero block of `n - 1` rows fails for `n == 0` (a negative dimension).
   */
  function InitDispatchMat(n: nat, m: nat): (r: Result<Matrix>)
    ensures r.Failure? <==> n == 0
    ensures r.Success? ==> Shape(r.value, n, m)
    ensures r.Success? ==> forall y :: 0 <= y < m ==> r.value[0][y]
    ensures r.Success? ==> forall x, y :: 1 <= x < n && 0 <= y < m ==> !r.value[x][y]
    ensures r.Success? ==> OneOrderPerDriver(r.value, m)
    ensures r.Success? ==> forall y :: 0 <= y < m ==> Indices(Column(r.value, y), true) == [0]
  {
    if n == 0 then Failure("negative dimensions are not allowed")
    else
      var a := [seq(m, _ => true)] + seq(n - 1, _ => seq(m, _ => false));
      assert Represents(a, m, seq(m, _ => 0));
      RepresentedHasOneOrder(a, m, seq(m, _ => 0));
      forall y | 0 <= y < m
        ensures Indices(Column(a, y), true) == [0]
      {
        OwnerLookup(a, m, seq(m, _ => 0), y);
      }
      Success(a)
  }

  /** The drivers not offered order `i`, ascending and without repeats. */
  function FindUndispatch(a: Matrix, i: nat): (u: seq<nat>)
    requires i < |a|
    ensures forall s :: 0 <= s < |u| ==> u[s] < |a[i]| && !a[i][u[s]]
    ensures forall y {:trigger y in u} :: y in u <==> 0 <= y < |a[i]| && !a[i][y]
    ensures StrictlyIncreasing(u)
  {
    IndicesExact(a[i], false);
    Indices(a[i], false)
  }

  /** The orders driver `j` is offered, read from row `j` of the transposed view. */
  function OrdersOfDriver(a: Matrix, m: nat, j: nat): (ks: seq<nat>)
    requires Shape(a, |a|, m) && j < m
    ensures forall x {:trigger x in ks} :: x in ks <==> 0 <= x < |a| && a[x][j]
    ensures StrictlyIncreasing(ks)
  {
    IndicesExact(Column(a, j), true);
    Indices(Column(a, j), true)
  }

  /** The matrix with driver `j` moved onto order `i` and every other cell kept. */
  function Reassign(a: Matrix, j: nat, i: nat): Matrix
    requires forall x :: 0 <= x < |a| ==> j < |a[x]|
  {
    seq(|a|, x requires 0 <= x < |a| => a[x][j := x == i])
  }

  /**
   Reassigning driver `j` to order `i` sets cell (i, j), clears the cell of
   the order `j` held, and leaves every other cell as it was.
   */
  lemma ReassignChangesTwoCells(a: Matrix, m: nat, j: nat, i: nat)
    requires Shape(a, |a|, m) && OneOrderPerDriver(a, m) && j < m && i < |a|
    ensures Reassign(a, j, i)[i][j]
    ensures forall x :: 0 <= x < |a| && x != i && a[x][j] ==> !Reassign(a, j, i)[x][j]
    ensures forall x, y :: 0 <= x < |a| && 0 <= y < m && Reassign(a, j, i)[x][y] != a[x][y] ==>
      y == j && (x == i || a[x][j])
  {
  }

  /** Reassigning driver `j` to order `i` changes its entry in the driver-to-order map and nothing else. */
  lemma ReassignMovesOneDriver(a: Matrix, m: nat, o: seq<nat>, j: nat, i: nat)
    requires Shape(a, |a|, m) && Represents(a, m, o) && j < m && i < |a|
    ensures Shape(Reassign(a, j, i), |a|, m)
    ensures Represents(Reassign(a, j, i), m, o[j := i])
    ensures OneOrderPerDriver(Reassign(a, j, i), m)
  {
    RepresentedHasOneOrder(Reassign(a, j, i), m, o[j := i]);
  }
}
