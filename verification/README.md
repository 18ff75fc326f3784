# Order dispatch by hill climbing — a Dafny model

This project models the core of `DispatchOrder`, a taxi-order dispatcher. It has
`N` orders and `M` drivers. Driver `j` accepts order `i` with probability
`prob[i][j]`. The 0/1 dispatch matrix `A` says which drivers each order is
offered to, and every driver is offered exactly one order.

- The **success rate** of order `i` is `1 − Π (1 − prob[i][j])`. The product
  runs over the drivers `j` that the order is offered to.
- The **objective** is the mean success rate over all orders.
- The **search** is first-improvement hill climbing:
  1. Start with every driver on order 0.
  2. For each order `i`, in turn, take each driver `j` not offered `i` and try
     moving it from its current order `k` to `i`.
  3. Keep the move only if the mean strictly rises. Otherwise undo it exactly.
  4. Repeat whole sweeps (epochs) until a sweep gains no more than `1e-8`, or
     100 sweeps have run.

The driver-by-order matrix `B` is a transposed view of the same storage as `A`,
not a copy. So `B` is modelled as `Column(a, j)` and never kept as separate
state. The writes through `B` after a committed move only repeat writes already
made to `A`, and `TryMove` proves them to be no-ops. `A` and `B` therefore never
diverge, even though a description of the algorithm as keeping `B` as a separate
matrix would have them diverge after a revert. The model follows the code.

Modules:

- `Assignment` (`assignment.dfy`) covers:
  - the matrix and its shape;
  - index lists of a row;
  - the column view `B`;
  - the one-order-per-driver invariant and its driver-to-order map;
  - the initial matrix;
  - the list of drivers not offered an order;
  - the list of orders of a driver;
  - reassignment of a driver.
- `SuccessRate` (`success_rate.dfy`) covers the success rate of an order (and
  the loop computing it), plus sums and means.
- `DispatchOrder` (`dispatch_order.dfy`) covers:
  - the consistent search state (`Valid`);
  - one candidate move;
  - the tries for one order;
  - one sweep;
  - the whole search.

## Model

| member | source | states |
|---|---|---|
| Assignment.InitDispatchMat | dispatch_order.py:32-39 | Fails exactly when there is no order (a zero block of `N − 1` rows cannot be built). Otherwise it builds an `N × M` matrix with row 0 all ones and every other row zero. Every driver is then offered exactly one order, and the order list of every driver is `[0]`. |
| Assignment.FindUndispatch | dispatch_order.py:66-75 | Lists exactly the drivers not offered order `i`: a driver is in the list if and only if its cell in row `i` is 0. The list is strictly increasing, so there are no repeats and drivers come in index order. |
| Assignment.OrdersOfDriver | dispatch_order.py:98 | `k_list`, row `j` of `B`, lists exactly the orders whose cell in column `j` is 1, in strictly increasing order. |
| Assignment.IndicesExact | dispatch_order.py:74 | The enumerate-and-filter list holds only positions with the wanted value. It holds every such position. It is strictly increasing. |
| Assignment.OwnerLookup | dispatch_order.py:98-106 | When a driver-to-order map `o` describes the matrix, driver `j`'s `k_list` is exactly `[o[j]]`. So `k_list` is never empty and `k = o[j]`. |
| Assignment.OneOrderHasOwner | dispatch_order.py:98-106 | If every column has exactly one 1, the map read off `k_list[0]` describes the whole matrix: a cell is 1 if and only if the map sends that driver to that order. |
| Assignment.RepresentedHasOneOrder | dispatch_order.py:98 | The converse: a matrix described by a driver-to-order map has exactly one 1 per column. |
| Assignment.ReassignMovesOneDriver | dispatch_order.py:110-117 | Moving driver `j` to order `i` keeps the shape. It changes the driver-to-order map at `j` only (to `i`). The matrix still has exactly one order per driver. |
| Assignment.ReassignChangesTwoCells | dispatch_order.py:110-111 | A committed move sets cell `(i, j)` and clears the cell of `j`'s former order. No other cell changes. |
| SuccessRate.CalcSr | dispatch_order.py:41-53 | The running product over all drivers, with exponent 0/1 from `A[i][j]`, gives the order's rate. That rate is `1 −` the product of `1 − prob[i][j]` over exactly the drivers offered the order. |
| SuccessRate.RateOverAssigned | dispatch_order.py:49-52 | The masked product over all drivers equals the product over the drivers offered the order. |
| SuccessRate.RateBounds | dispatch_order.py:49-52 | With probabilities in `[0, 1]`, every success rate lies in `[0, 1]`. |
| SuccessRate.RateOfUnservedOrder | dispatch_order.py:49-52 | An order offered to no driver has success rate 0 (the empty product is 1). |
| SuccessRate.RateExample | dispatch_order.py:49-52 | Two drivers accepting with probability 1/2 give rate 3/4. One of them alone gives 1/2. |
| SuccessRate.AddDriver | dispatch_order.py:51 | Offering the order to one more driver `j` multiplies the failure probability `1 − rate` by `1 − prob[i][j]`. Taking the driver away again restores the row. |
| SuccessRate.RateMonotone | dispatch_order.py:51 | With probabilities in `[0, 1]`, offering an order to one more driver never lowers its success rate. |
| SuccessRate.SumUpdate | dispatch_order.py:63 | Overwriting one rate changes the sum by exactly the difference between the new and old value. |
| SuccessRate.MeanBounds | dispatch_order.py:55-64 | The mean of values within `[lo, hi]` lies within `[lo, hi]`. |
| SuccessRate.MeanOfTwoUpdates | dispatch_order.py:112-114 | After recomputing the rates of orders `i` and `k`, the mean rises above the old mean exactly when the two new rates sum to more than the two old ones. It equals the old mean exactly when the sums are equal. |
| DispatchOrder.AggregateBounds | dispatch_order.py:86-90 | In a consistent state with probabilities in `[0, 1]`, every cached rate and the cached mean lie in `[0, 1]`. |
| DispatchOrder.TryMove | dispatch_order.py:96-123 | One try of driver `j` (not offered `i`) for order `i`. It commits exactly when the mean after the move is strictly above the current mean, so ties are rejected. A commit leaves the reassigned matrix and a strictly larger mean. A rejection restores matrix, rates and mean exactly. Rates of orders other than `i` and `j`'s former order never change. The state stays consistent: one order per driver, cached rates equal to recomputed ones, cached mean equal to their mean. The branch for a driver with an empty `k_list` is unreachable. |
| DispatchOrder.RatesAfterMove | dispatch_order.py:112 | After a move, the full rate vector differs from the cached one only at `i` and `k`, where it holds the recomputed rates. |
| DispatchOrder.MoveIsReassign | dispatch_order.py:110-111 | Setting `A[i][j]` and clearing `A[k][j]`, with `k` driver `j`'s order, is the reassignment of `j` to `i`. |
| DispatchOrder.UndoMove | dispatch_order.py:119-123 | The revert writes restore the matrix exactly. |
| DispatchOrder.UndoTwoUpdates | dispatch_order.py:108-121 | Writing back the two saved rates restores the rate vector exactly. |
| DispatchOrder.RewriteCell | dispatch_order.py:116-117 | The writes through `B` after a commit write values the cells already hold, so they change nothing. |
| DispatchOrder.ReassignKeepsLaterDrivers | dispatch_order.py:95-96 | Drivers later in the snapshot `U` are still not offered `i` after an earlier driver of `U` is moved onto `i`. So `k ≠ i` for every try. |
| DispatchOrder.NoneOfListImproves | dispatch_order.py:95-96 | If no driver of `U` improves the mean, no driver that is not offered `i` does. |
| DispatchOrder.SweepOrder | dispatch_order.py:93-123 | The tries for order `i` over the snapshot `U` keep the state consistent and never lower the mean. If the mean is unchanged, no move was committed, and no move of a driver onto `i` would raise it. |
| DispatchOrder.Epoch | dispatch_order.py:91-126 | One sweep over all orders keeps the state consistent and never lowers the mean. A sweep with zero gain leaves matrix and rates untouched, and that state is a local optimum: no single driver move raises the mean. |
| DispatchOrder.HillClimbing | dispatch_order.py:77-128 | Fails exactly when there is no order. Otherwise it runs between 1 and 100 sweeps. Every gain is non-negative. Every sweep but the last gains more than `1e-8`, and if fewer than 100 ran, the last gained at most `1e-8`. The final mean is the initial mean plus the sum of the gains, and the final state is consistent. A last sweep with zero gain ends at a local optimum. |

## Left out

- `init_prob` and `np.random.rand`: the acceptance table `prob` is a parameter of `HillClimbing`. Properties that need probabilities in `[0, 1]` assume this, as `rand` guarantees.
- Floating point: probabilities, rates and means are exact reals, and `1e-8` is the exact real `0.00000001`. Rounding in the products and in `np.mean` is not modelled, so the model's comparisons `>` and `<=` are exact.
- `print` of the running mean (line 124) and the `__main__` block (lines 130-134): output only.
- The body of the `len(k_list) == 0` branch (lines 101-104): it is proved unreachable, because every driver is offered exactly one order before and after every step. It would otherwise use an undefined `k`.
- The dtype argument `np.int`, which newer numpy versions no longer provide: the model treats cells as booleans, and the dtype is an environment detail.
- `np.mean` of an empty list: unreachable, because building the initial matrix already fails when there is no order.
- The documented restriction `N <= M` is not checked by the code, and no step needs it. The model places no such requirement.
- The constructor defaults `N = 5`, `M = 5`: `N` and `M` are parameters.
