# Network-constrained unit commitment, modelled in Dafny

The program schedules a fleet of thermal units over discrete periods. It
decides, for each period, which units run and how much they produce, at
minimum cost. The schedule must meet demand at every bus of a transmission
network and respect unit limits, line capacities and DC power flow. The
program hands a mixed-integer linear model to an external solver. The same
model is built three times: `system.solve_uc` in `psopy.py`, `system.solve`
in `unit_commitment.py` and `system.solve` in `powpy.py`.

This project models that constraint system as a feasibility predicate over
exact reals. It also models the extraction of solved values into result
tables (`pyomo2df` and the stored result layouts). It proves what the
constraints guarantee about every feasible schedule.

Index sets: generators `g < ng`, lines `l < nl`, buses `b < nb`, periods
`t < nt`. `nb` is the column count and `nt` the row count of the demand
table.

Modules:

- `Sums` (sums.dfy): finite sums and bus-wise filtered sums (`SumWhere`,
  `BusTotals`). These are the `sum(... for g in m.g if gen['bus'][g] == b)`
  terms of the balance.
- `Matrices` (matrices.dfy): rectangular tables, columns, transposition,
  grand totals, and the weighted double sum of the cost definition.
- `Network` (network.dfy): input tables (`Generator`, `Line`, `System`),
  the two switches (`Options`), a candidate `Schedule` and the constraints.
  `Feasible` is their conjunction.
- `Commitment` (commitment.dfy): what the commitment-scaled limits allow
  one unit to produce, with binary and with relaxed commitment.
- `Feasibility` (feasibility.dfy): the effect of the switches on the
  feasible set, the always-feasible all-off schedule, and bounds.
- `Conservation` (conservation.dfy): per-period global energy balance.
  Line flows cancel in it.
- `Optimality` (optimality.dfy): optimality stated relationally, bounds on
  the optimum, and two small systems whose optimum is proved.
- `Solution` (solution.dfy): `pyomo2df` and the two result layouts.

Where each constraint family lives (line numbers are the same rule in the
three files):

| constraint | Dafny | psopy.py | unit_commitment.py | powpy.py |
|---|---|---|---|---|
| variable domains | `UnitOk`, `CommitDomain`, `BusOk` | 165-174 | 67-76 | 27-36 |
| cost definition | `Feasible` (`s.z == Cost(...)`) | 182-184 | 84-86 | 42-44 |
| energy balance | `Balanced` | 187-189 | 89-91 | 46-48 |
| min / max generation | `UnitOk` | 192-199 | 94-101 | 50-56 |
| spill and shed bounds | `BusOk` | 202-209 | 104-111 | 58-64 |
| DC flow | `LineOk`, `DcFlow` | 212-214 | 114-116 | 66-68 |
| flow limits (network on) | `LineOk`, `WithinCapacity` | 217-230 | 119-132 | 70-82 |

Notes on following the code:

- The code validates nothing. There are no shape checks, no bus-index
  checks, and no sign checks on costs, limits or capacities. `WellFormed`
  therefore states only what building the model needs: a rectangular
  demand table, a renewable table covering every `(t, b)` that is read,
  and line ends at existing buses, since an angle is read at both ends.
  Sign conditions appear only as preconditions of the lemmas that need
  them.
- A generator whose bus is not below `nb` does not break the model build.
  Its production just never appears in any balance. `GenBusesValid` is
  therefore required only by the conservation lemmas.
- Lines with `from == to` are not excluded. The DC flow rule forces their
  flow to 0.
- The `solver` argument of the solve call is ignored, and CPLEX is always
  used. The solver is not modelled.
- The solver status is never inspected before results are read.
  `ResultsByEntity` / `ResultsByPeriod` take an already solved schedule.

## Model

| member | source | states |
|---|---|---|
| Commitment.DecommittedUnitIsOff | psopy.py:192-199 | a unit with commitment 0 produces exactly 0 |
| Commitment.CommittedUnitInLimits | unit_commitment.py:94-101 | a unit with commitment 1 produces between its minimum and maximum |
| Commitment.BinaryOutputs | psopy.py:167-168 | with binary commitment and minimum >= 0, output p is achievable iff p = 0 or minimum <= p <= maximum |
| Commitment.RelaxedCommitment | psopy.py:169-170 | for 0 <= p <= maximum (and minimum <= maximum) it gives a commitment in [0, 1] under which p meets the min and max constraints |
| Commitment.RelaxedOutputs | psopy.py:126 | with relaxed commitment, output p is achievable iff 0 <= p <= maximum: the minimum output is disregarded |
| Commitment.BinaryUnitIsRelaxedUnit | unit_commitment.py:69-72 | every binary production/commitment pair is admissible in the relaxed domain |
| Commitment.DecommitForcesZero | powpy.py:54-56 | in every feasible schedule, commitment 0 forces production 0 |
| Commitment.CommittedOutputInLimits | powpy.py:50-56 | in every feasible schedule a committed unit is within its limits, and with binary commitment every unit is off with no output or on within its limits |
| Feasibility.FeasibleUnderLooser | psopy.py:216-230 | switching the network limits off or relaxing commitment only enlarges the feasible set |
| Feasibility.NetworkSwitch | powpy.py:70-82 | feasible with network limits iff feasible without them and every flow is within capacity |
| Feasibility.CommitSwitch | powpy.py:29-32 | feasible with binary commitment iff feasible with relaxed commitment and every commitment is 0 or 1 |
| Feasibility.AllOff | psopy.py:182-184 | the all-off, shed-all, spill-all schedule costs the shedding price times total demand |
| Feasibility.AllOffFeasible | unit_commitment.py:84-132 | for non-negative demand, renewable output and capacities, the all-off schedule meets every constraint under both switches |
| Feasibility.EqualAnglesNoFlow | psopy.py:212-214 | equal angles at both ends of a line give zero flow |
| Feasibility.FlowsFollowAngles | powpy.py:66-68 | two feasible schedules with the same angles have the same flows, with or without limits |
| Feasibility.ShedAndSpillBounded | unit_commitment.py:104-111 | shedding is in [0, demand] and spillage in [0, renewable]; zero renewable means zero spill |
| Feasibility.CostNonNegative | psopy.py:182-184 | with non-negative unit costs and shedding price, every feasible schedule has z >= 0 |
| Conservation.FlowsCancel | psopy.py:187-189 | summed over all buses, inflows and outflows both equal the total line flow of the period |
| Conservation.GenerationTotal | unit_commitment.py:89-91 | summed over all buses, injected production equals total production when every unit sits at an existing bus |
| Conservation.GlobalBalance | powpy.py:46-48 | in every feasible schedule and period, total production + renewable + shed = total demand + spill |
| Optimality.LooserOptimumNoHigher | unit_commitment.py:78-81 | the optimum with fewer constraints (no network limits, relaxed commitment) costs no more |
| Optimality.OptimumAtMostShedAll | powpy.py:38-40 | for non-negative data an optimum costs at most the shedding price times total demand |
| Optimality.SingleBusCostBound | powpy.py:42-64 | on a one-bus system (cost 5, demand 10, shedding price 1000) every relaxed feasible schedule costs at least 50 |
| Optimality.SingleBusOptimal | psopy.py:176-209 | on that system, producing 10 at commitment 0.5 is optimal at cost 50 |
| Optimality.TwoBusCostBound | unit_commitment.py:84-132 | on a two-bus system with a capacity-3 line and demand 4 behind it, with network limits on and binary commitment, every feasible schedule sheds at least 1 and costs at least 1003 |
| Optimality.TwoBusOptimal | psopy.py:176-230 | on that system with network limits on, flow 3 at capacity with 1 unit shed is optimal at cost 1003 |
| Sums.BusTotalsSum | psopy.py:188 | aggregating values by bus and summing over buses gives their plain total when every key is an existing bus |
| Matrices.WeightedTotalUniform | powpy.py:43 | the shedding cost is the shedding price times the total shed |
| Matrices.WeightedTotalNonNegative | psopy.py:183 | non-negative prices on non-negative quantities give a non-negative cost |
| Matrices.WeightedTotalZero | unit_commitment.py:85 | zero production costs nothing whatever the unit costs |
| Matrices.SumAllTranspose | unit_commitment.py:85 | the double sum over buses and periods equals the double sum over periods and buses |
| Matrices.TransposeTwice | powpy.py:95-99 | transposing a result table twice gives it back, so the period x entity tables hold the same data as the entity x period ones |
| Solution.Pyomo2Df | powpy.py:101-108 | returns one row per first index, each with one entry per second index, entry [i][j] = var[index1[i], index2[j]] |
| Solution.Extract | powpy.py:103-107 | extracting a variable over its own index ranges returns exactly its table of values |
| Solution.ResultsByEntity | psopy.py:244-248 | the stored production, commitment, flow, shed and spill tables (entity x period) equal the solved values |
| Solution.TransposeFrame | powpy.py:95-99 | the `.T` of a table built from rows: the transposed entries for a non-empty table, and no rows at all for a table built from no rows |
| Solution.ResultsByPeriod | powpy.py:95-99 | the stored tables are period x entity (prod nt x ng, flow nt x nl, shed and spil nt x nb) with [t][e] the value of entity e in period t; a table over an empty entity set (no units, no lines or no buses) has no rows at all, as the transpose of a frame built from no rows |

## Left out

- The solver: model objects, `SolverFactory` / `SolverManagerFactory`, CPLEX and NEOS remote solving, and the solver log. These are a foreign solver and network I/O. Optimality is stated relationally by `Optimal` instead.
- Solver tuning: the thread count and `mipgap`. They do not change the constraint semantics.
- Excel and CSV reading of the input tables and export of the results. This is file I/O. Inputs are parsed sequences.
- Rounding of results to two decimals. It is floating-point presentation only.
- Time aggregation (`time_serie` and `time_aggregation.py`). It depends on a clustering library, floating point and plotting.
- `main.py`: a script that only passes file names to `powpy.system`.
- The solve time (`self.time`) and the stored model object (`self.output`) in `powpy.py`. They are solver output and are not computed.
- Numerical tolerance: constraints are exact equalities and inequalities over reals, with no floating-point rounding.
