/** What "solved" means, stated relationally (the solver itself is not
    modelled): a feasible schedule no feasible schedule undercuts. Bounds on
    the optimum, and two small systems whose optimum is pinned down. */
module Optimality {
  import opened Sums
  import opened Matrices
  import opened Network
  import opened Feasibility

  /** s is feasible and costs no more than any feasible schedule. */
  ghost predicate Optimal(sys: System, opt: Options, s: Schedule)
    requires WellFormed(sys)
  {
    Feasible(sys, opt, s) && forall s' :: Feasible(sys, opt, s') ==> s.z <= s'.z
  }

  /** Dropping constraints can only lower the optimal cost: the copper-plate
      optimum is at most the network-limited one, and the relaxed optimum is
      at most the binary one. */
  lemma LooserOptimumNoHigher(sys: System, strong: Options, weak: Options, s: Schedule, s': Schedule)
    requires WellFormed(sys)
    requires Looser(weak, strong)
    requires Optimal(sys, strong, s) && Optimal(sys, weak, s')
    ensures s'.z <= s.z
  {
    FeasibleUnderLooser(sys, strong, weak, s);
  }

  /** For non-negative data an optimum never costs more than shedding all
      demand. */
  lemma OptimumAtMostShedAll(sys: System, opt: Options, s: Schedule)
    requires WellFormed(sys) && NonNegativeData(sys)
    requires Optimal(sys, opt, s)
    ensures s.z <= sys.shedCost * SumAll(sys.dem)
  {
    AllOffFeasible(sys, opt);
  }

  /** One bus, one unit (cost 5, limits [0, 20]), one period, demand 10, no
      renewable output, shedding price 1000. */
  function SingleBus(): (sys: System)
    ensures WellFormed(sys)
  {
    System([Generator(0, 5.0, 0.0, 20.0)], [], 1, [[10.0]], [[0.0]], DefaultShedCost)
  }

  /** The unit covers all demand at half commitment. */
  function SingleBusSchedule(): Schedule
  {
    Schedule(50.0, [[10.0]], [[0.5]], [[0.0]], [[0.0]], [[0.0]], [])
  }

  /** On the single-bus system with relaxed commitment and no network
      limits, producing 10 at half commitment is optimal at cost 50. */
  lemma SingleBusOptimal()
    ensures Optimal(SingleBus(), Options(false, false), SingleBusSchedule())
    ensures SingleBusSchedule().z == 50.0
  {
    var sys := SingleBus();
    var opt := Options(false, false);
    var s := SingleBusSchedule();
    assert GenBuses(sys) == [0];
    assert Column(s.pro, 0) == [10.0];
    assert Generation(sys, s, 0)[0] == 10.0;
    assert Inflow(sys, s, 0)[0] == 0.0;
    assert Outflow(sys, s, 0)[0] == 0.0;
    assert BusOk(sys, s, 0, 0);
    WeightedTotalUniform(DefaultShedCost, s.shd);
    assert Cost(sys, s.pro, s.shd) == 50.0;
    assert Feasible(sys, opt, s);
    forall s' | Feasible(sys, opt, s')
      ensures s.z <= s'.z
    {
      SingleBusCostBound(s');
    }
  }

  /** On the single-bus system with relaxed commitment, every feasible
      schedule costs at least 50: each unit of demand not produced at price
      5 is shed at price 1000. */
  lemma SingleBusCostBound(s: Schedule)
    requires Feasible(SingleBus(), Options(false, false), s)
    ensures s.z >= 50.0
  {
    var sys := SingleBus();
    var p, shd, spl := s.pro[0][0], s.shd[0][0], s.spl[0][0];
    assert GenBuses(sys) == [0];
    assert Column(s.pro, 0) == [p];
    SumWhereSingle(0, p, 0);
    assert Generation(sys, s, 0)[0] == p;
    assert Inflow(sys, s, 0)[0] == 0.0;
    assert Outflow(sys, s, 0)[0] == 0.0;
    assert BusOk(sys, s, 0, 0);
    assert p + shd == 10.0 + spl && spl == 0.0;
    assert Costs(sys) == [5.0];
    assert Sum(Scale(5.0, s.pro[0])) == 5.0 * p;
    assert WeightedTotal(Costs(sys), s.pro) == 5.0 * p;
    WeightedTotalUniform(DefaultShedCost, s.shd);
    assert SumAll(s.shd) == shd;
    assert s.z == 5.0 * p + 1000.0 * shd;
  }

  /** Two buses joined by one line (susceptance 5, capacity 3); a unit with
      cost 1 and limits [0, 50] at bus 0; demand 4 at bus 1 only. */
  function TwoBus(): (sys: System)
    ensures WellFormed(sys)
  {
    System([Generator(0, 1.0, 0.0, 50.0)], [Line(0, 1, 5.0, 3.0)], 2, [[0.0, 4.0]], [[0.0, 0.0]], DefaultShedCost)
  }

  /** The line carries its capacity 3 and the remaining unit of demand is
      shed. */
  function TwoBusSchedule(): Schedule
  {
    Schedule(1003.0, [[3.0]], [[1.0]], [[0.0], [1.0]], [[0.0], [0.0]], [[0.6], [0.0]], [[3.0]])
  }

  /** On the two-bus system with the default switches (network limits on,
      binary commitment), every
      feasible schedule sheds at least one unit at bus 1 and costs at least
      1003. */
  lemma TwoBusCostBound(s: Schedule)
    requires Feasible(TwoBus(), DefaultOptions, s)
    ensures s.shd[1][0] >= 1.0
    ensures s.z >= 1003.0
  {
    var sys := TwoBus();
    var p, f := s.pro[0][0], s.flw[0][0];
    assert GenBuses(sys) == [0] && ToBuses(sys) == [1] && FromBuses(sys) == [0];
    assert Column(s.pro, 0) == [p];
    assert Column(s.flw, 0) == [f];
    SumWhereSingle(0, p, 0);
    SumWhereSingle(0, p, 1);
    assert Generation(sys, s, 0)[0] == p && Generation(sys, s, 0)[1] == 0.0;
    assert Inflow(sys, s, 0)[0] == 0.0 && Inflow(sys, s, 0)[1] == f;
    assert Outflow(sys, s, 0)[0] == f && Outflow(sys, s, 0)[1] == 0.0;
    assert BusOk(sys, s, 0, 0) && BusOk(sys, s, 1, 0);
    assert LineOk(sys, true, s, 0, 0);
    assert s.shd[0][0] == 0.0 && p == f && f <= 3.0;
    assert s.shd[1][0] == 4.0 - f;
    assert Costs(sys) == [1.0];
    assert Sum(Scale(1.0, s.pro[0])) == p;
    assert WeightedTotal(Costs(sys), s.pro) == p;
    WeightedTotalUniform(DefaultShedCost, s.shd);
    assert RowSums(s.shd) == [s.shd[0][0], s.shd[1][0]];
    assert SumAll(s.shd) == s.shd[1][0];
  }

  /** On the two-bus system with the default switches the congested
      schedule is optimal: flow 3 at
      capacity, shedding 1, cost 3 + 1000 * 1. */
  lemma TwoBusOptimal()
    ensures Optimal(TwoBus(), DefaultOptions, TwoBusSchedule())
    ensures TwoBusSchedule().z == 1003.0 && TwoBusSchedule().shd[1][0] == 1.0
  {
    var sys := TwoBus();
    var opt := DefaultOptions;
    var s := TwoBusSchedule();
    assert GenBuses(sys) == [0] && ToBuses(sys) == [1] && FromBuses(sys) == [0];
    assert Column(s.pro, 0) == [3.0];
    assert Column(s.flw, 0) == [3.0];
    assert Generation(sys, s, 0)[0] == 3.0 && Generation(sys, s, 0)[1] == 0.0;
    assert Inflow(sys, s, 0)[0] == 0.0 && Inflow(sys, s, 0)[1] == 3.0;
    assert Outflow(sys, s, 0)[0] == 3.0 && Outflow(sys, s, 0)[1] == 0.0;
    assert BusOk(sys, s, 0, 0) && BusOk(sys, s, 1, 0);
    assert LineOk(sys, true, s, 0, 0);
    assert Sum(Scale(1.0, s.pro[0])) == 3.0;
    assert WeightedTotal(Costs(sys), s.pro) == 3.0;
    WeightedTotalUniform(DefaultShedCost, s.shd);
    assert RowSums(s.shd) == [0.0, 1.0];
    assert Cost(sys, s.pro, s.shd) == 1003.0;
    assert Feasible(sys, opt, s);
    forall s' | Feasible(sys, opt, s')
      ensures s.z <= s'.z
    {
      TwoBusCostBound(s');
    }
  }
}
