/** What the minimum and maximum generation constraints, scaled by the
    commitment variable, allow a single unit to produce in one period, with
    binary and with relaxed commitment. */
module Commitment {
  import opened Network

  /** A decommitted unit produces exactly nothing: production is
      non-negative and at most 0 * maximum. */
  lemma DecommittedUnitIsOff(gen: Generator, commit: bool, u: real, p: real)
    requires UnitOk(gen, commit, u, p)
    requires u == 0.0
    ensures p == 0.0
  {
  }

  /** A committed unit produces between its minimum and its maximum. */
  lemma CommittedUnitInLimits(gen: Generator, commit: bool, u: real, p: real)
    requires UnitOk(gen, commit, u, p)
    requires u == 1.0
    ensures gen.minOut <= p <= gen.maxOut
  {
  }

  /** With binary commitment a unit with a non-negative minimum can produce
      p exactly when p is 0 (off) or lies in [minimum, maximum] (on). */
  lemma BinaryOutputs(gen: Generator, p: real)
    requires gen.minOut >= 0.0
    ensures (exists u :: UnitOk(gen, true, u, p)) <==> (p == 0.0 || gen.minOut <= p <= gen.maxOut)
  {
    if p == 0.0 {
      assert UnitOk(gen, true, 0.0, p);
    } else if gen.minOut <= p <= gen.maxOut {
      assert UnitOk(gen, true, 1.0, p);
    }
  }

  /** A commitment level in [0, 1] that lets the unit produce p when
      commitment is relaxed: p / maximum, or 0 for a unit whose maximum is 0.
      The minimum plays no part. */
  function RelaxedCommitment(gen: Generator, p: real): (u: real)
    requires gen.minOut <= gen.maxOut
    requires 0.0 <= p <= gen.maxOut
    ensures UnitOk(gen, false, u, p)
  {
    if gen.maxOut == 0.0 then 0.0
    else
      var u := p / gen.maxOut;
      assert u * gen.maxOut == p;
      assert u * gen.minOut <= u * gen.maxOut by {
        assert u >= 0.0;
        assert u * (gen.maxOut - gen.minOut) >= 0.0;
      }
      u
  }

  /** With relaxed commitment a unit whose limits satisfy
      minimum <= maximum and 0 <= maximum can produce p exactly when
      0 <= p <= maximum: the minimum output is disregarded. */
  lemma RelaxedOutputs(gen: Generator, p: real)
    requires gen.minOut <= gen.maxOut
    requires gen.maxOut >= 0.0
    ensures (exists u :: UnitOk(gen, false, u, p)) <==> 0.0 <= p <= gen.maxOut
  {
    if 0.0 <= p <= gen.maxOut {
      var u := RelaxedCommitment(gen, p);
      assert UnitOk(gen, false, u, p);
    }
    if u :| UnitOk(gen, false, u, p) {
      assert u * gen.maxOut <= gen.maxOut by {
        assert (1.0 - u) * gen.maxOut >= 0.0;
      }
    }
  }

  /** Relaxing the commitment domain only admits more: every binary
      production/commitment pair is also a relaxed one. */
  lemma BinaryUnitIsRelaxedUnit(gen: Generator, u: real, p: real)
    requires UnitOk(gen, true, u, p)
    ensures UnitOk(gen, false, u, p)
  {
  }

  /** Decommitment forces zero production in every feasible schedule. */
  lemma DecommitForcesZero(sys: System, opt: Options, s: Schedule, g: nat, t: nat)
    requires WellFormed(sys) && Feasible(sys, opt, s)
    requires g < sys.ng() && t < sys.nt()
    requires s.u[g][t] == 0.0
    ensures s.pro[g][t] == 0.0
  {
    DecommittedUnitIsOff(sys.gens[g], opt.commit, s.u[g][t], s.pro[g][t]);
  }

  /** In every feasible schedule a committed unit produces within its
      limits, and with binary commitment every unit is either off with no
      output or on within its limits. */
  lemma CommittedOutputInLimits(sys: System, opt: Options, s: Schedule, g: nat, t: nat)
    requires WellFormed(sys) && Feasible(sys, opt, s)
    requires g < sys.ng() && t < sys.nt()
    ensures s.u[g][t] == 1.0 ==> sys.gens[g].minOut <= s.pro[g][t] <= sys.gens[g].maxOut
    ensures opt.commit ==>
      (s.u[g][t] == 0.0 && s.pro[g][t] == 0.0) ||
      (s.u[g][t] == 1.0 && sys.gens[g].minOut <= s.pro[g][t] <= sys.gens[g].maxOut)
  {
    assert UnitOk(sys.gens[g], opt.commit, s.u[g][t], s.pro[g][t]);
  }
}
