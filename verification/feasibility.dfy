/** Consequences of the constraint system for single schedules: what the
    switches do to the feasible set, the always-feasible all-off schedule,
    and bounds every feasible schedule respects. */
module Feasibility {
  import opened Sums
  import opened Matrices
  import opened Network
  import Commitment

  /** `weak` drops at least the constraints `strong` drops: it leaves the
      capacity limits out whenever `strong` does, and relaxes commitment
      whenever `strong` does. */
  predicate Looser(weak: Options, strong: Options)
  {
    (weak.network ==> strong.network) && (weak.commit ==> strong.commit)
  }

  /** Every line flow of s is within its capacity in every period. */
  predicate AllWithinCapacity(sys: System, s: Schedule)
    requires Shaped(sys, s)
  {
    forall l, t | 0 <= l < sys.nl() && 0 <= t < sys.nt() :: WithinCapacity(sys, s, l, t)
  }

  /** Every commitment value of s is 0 or 1. */
  predicate BinaryCommitments(sys: System, s: Schedule)
    requires Shaped(sys, s)
  {
    forall g, t | 0 <= g < sys.ng() && 0 <= t < sys.nt() :: s.u[g][t] == 0.0 || s.u[g][t] == 1.0
  }

  /** Switching a constraint family off only enlarges the feasible set:
      network-limited schedules are copper-plate feasible, and binary
      schedules are relaxed feasible. */
  lemma FeasibleUnderLooser(sys: System, strong: Options, weak: Options, s: Schedule)
    requires WellFormed(sys)
    requires Looser(weak, strong)
    requires Feasible(sys, strong, s)
    ensures Feasible(sys, weak, s)
  {
    forall g, t | 0 <= g < sys.ng() && 0 <= t < sys.nt()
      ensures UnitOk(sys.gens[g], weak.commit, s.u[g][t], s.pro[g][t])
    {
      if strong.commit && !weak.commit {
        Commitment.BinaryUnitIsRelaxedUnit(sys.gens[g], s.u[g][t], s.pro[g][t]);
      }
    }
    forall l, t | 0 <= l < sys.nl() && 0 <= t < sys.nt()
      ensures LineOk(sys, weak.network, s, l, t)
    {
      assert LineOk(sys, strong.network, s, l, t);
    }
  }

  /** The network switch removes exactly the two flow-limit families: a
      schedule is feasible with limits iff it is feasible without them and
      every flow is within capacity. */
  lemma NetworkSwitch(sys: System, commit: bool, s: Schedule)
    requires WellFormed(sys)
    ensures Feasible(sys, Options(true, commit), s) <==>
      (Feasible(sys, Options(false, commit), s) && AllWithinCapacity(sys, s))
  {
    if Feasible(sys, Options(false, commit), s) && AllWithinCapacity(sys, s) {
      forall l, t | 0 <= l < sys.nl() && 0 <= t < sys.nt()
        ensures LineOk(sys, true, s, l, t)
      {
        assert LineOk(sys, false, s, l, t);
      }
    }
    if Feasible(sys, Options(true, commit), s) {
      forall l, t | 0 <= l < sys.nl() && 0 <= t < sys.nt()
        ensures WithinCapacity(sys, s, l, t) && LineOk(sys, false, s, l, t)
      {
        assert LineOk(sys, true, s, l, t);
      }
    }
  }

  /** The commit switch only changes the commitment domain: a schedule is
      feasible with binary commitment iff it is feasible with relaxed
      commitment and every commitment value is 0 or 1. */
  lemma CommitSwitch(sys: System, network: bool, s: Schedule)
    requires WellFormed(sys)
    ensures Feasible(sys, Options(network, true), s) <==>
      (Feasible(sys, Options(network, false), s) && BinaryCommitments(sys, s))
  {
    if Feasible(sys, Options(network, true), s) {
      FeasibleUnderLooser(sys, Options(network, true), Options(network, false), s);
      forall g, t | 0 <= g < sys.ng() && 0 <= t < sys.nt()
        ensures s.u[g][t] == 0.0 || s.u[g][t] == 1.0
      {
        assert UnitOk(sys.gens[g], true, s.u[g][t], s.pro[g][t]);
      }
    }
  }

  /** The renewable availability actually read: nt rows of nb entries. */
  function RenTable(sys: System): (r: seq<seq<real>>)
    requires WellFormed(sys)
    ensures Matrix(r, sys.nt(), sys.nb)
  {
    seq(sys.nt(), t requires 0 <= t < sys.nt() => sys.ren[t][..sys.nb])
  }

  /** The all-off schedule: every unit decommitted with no output, all
      demand shed, all renewable output spilled, all angles and flows 0.
      Its cost is the shedding price times the total demand. */
  function AllOff(sys: System): (s: Schedule)
    requires WellFormed(sys)
    ensures Shaped(sys, s)
    ensures s.z == sys.shedCost * SumAll(sys.dem)
  {
    var nt := sys.nt();
    var off := ZeroMatrix(sys.ng(), nt);
    var shd := Transpose(sys.dem, sys.nb);
    WeightedTotalZero(Costs(sys), sys.ng(), nt);
    WeightedTotalUniform(sys.shedCost, shd);
    SumAllTranspose(sys.dem, sys.nb);
    Schedule(
      Cost(sys, off, shd),
      off,
      off,
      shd,
      Transpose(RenTable(sys), sys.nb),
      ZeroMatrix(sys.nb, nt),
      ZeroMatrix(sys.nl(), nt))
  }

  /** The model is always feasible for non-negative data, under every
      setting of the switches: the all-off schedule meets every
      constraint. */
  lemma AllOffFeasible(sys: System, opt: Options)
    requires WellFormed(sys) && NonNegativeData(sys)
    ensures Feasible(sys, opt, AllOff(sys))
  {
    var s := AllOff(sys);
    forall b, t | 0 <= b < sys.nb && 0 <= t < sys.nt()
      ensures BusOk(sys, s, b, t)
    {
      SumWhereZero(GenBuses(sys), Column(s.pro, t), b);
      SumWhereZero(ToBuses(sys), Column(s.flw, t), b);
      SumWhereZero(FromBuses(sys), Column(s.flw, t), b);
    }
  }

  /** Equal angles at both ends of a line mean no flow on it. */
  lemma EqualAnglesNoFlow(sys: System, opt: Options, s: Schedule, l: nat, t: nat)
    requires WellFormed(sys) && Feasible(sys, opt, s)
    requires l < sys.nl() && t < sys.nt()
    requires s.ang[sys.lines[l].from][t] == s.ang[sys.lines[l].to][t]
    ensures s.flw[l][t] == 0.0
  {
    assert LineOk(sys, opt.network, s, l, t);
  }

  /** Flows are determined by the angles, with or without capacity limits:
      two feasible schedules with the same angles have the same flows. */
  lemma FlowsFollowAngles(sys: System, opt1: Options, opt2: Options, s1: Schedule, s2: Schedule)
    requires WellFormed(sys)
    requires Feasible(sys, opt1, s1) && Feasible(sys, opt2, s2)
    requires s1.ang == s2.ang
    ensures s1.flw == s2.flw
  {
    forall l | 0 <= l < sys.nl()
      ensures s1.flw[l] == s2.flw[l]
    {
      forall t | 0 <= t < sys.nt()
        ensures s1.flw[l][t] == s2.flw[l][t]
      {
        assert LineOk(sys, opt1.network, s1, l, t);
        assert LineOk(sys, opt2.network, s2, l, t);
      }
    }
  }

  /** Shedding never exceeds demand and spillage never exceeds the
      renewable availability; in particular a bus without renewable output
      spills nothing. */
  lemma ShedAndSpillBounded(sys: System, opt: Options, s: Schedule, b: nat, t: nat)
    requires WellFormed(sys) && Feasible(sys, opt, s)
    requires b < sys.nb && t < sys.nt()
    ensures 0.0 <= s.shd[b][t] <= sys.dem[t][b]
    ensures 0.0 <= s.spl[b][t] <= sys.ren[t][b]
    ensures sys.ren[t][b] == 0.0 ==> s.spl[b][t] == 0.0
  {
    assert BusOk(sys, s, b, t);
  }

  /** With non-negative unit costs and shedding price, every feasible
      schedule costs at least 0. */
  lemma CostNonNegative(sys: System, opt: Options, s: Schedule)
    requires WellFormed(sys) && Feasible(sys, opt, s)
    requires forall g | 0 <= g < sys.ng() :: sys.gens[g].cost >= 0.0
    requires sys.shedCost >= 0.0
    ensures s.z >= 0.0
  {
    forall g, t | 0 <= g < |s.pro| && 0 <= t < |s.pro[g]|
      ensures s.pro[g][t] >= 0.0
    {
      assert UnitOk(sys.gens[g], opt.commit, s.u[g][t], s.pro[g][t]);
    }
    forall b, t | 0 <= b < |s.shd| && 0 <= t < |s.shd[b]|
      ensures s.shd[b][t] >= 0.0
    {
      assert BusOk(sys, s, b, t);
    }
    WeightedTotalNonNegative(Costs(sys), s.pro);
    WeightedTotalNonNegative(Constant(|s.shd|, sys.shedCost), s.shd);
  }
}
