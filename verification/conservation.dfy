/** Global energy conservation: summing the nodal balance over all buses of
    a period, every line flow leaves one bus and enters another, so the
    flows cancel and total supply equals total use. */
module Conservation {
  import opened Sums
  import opened Matrices
  import opened Network

  /** Summed over all buses, inflows and outflows both equal the total of
      the line flows of the period (every line starts and ends at a bus). */
  lemma FlowsCancel(sys: System, s: Schedule, t: nat)
    requires WellFormed(sys) && Shaped(sys, s)
    requires t < sys.nt()
    ensures Sum(Inflow(sys, s, t)) == Sum(Column(s.flw, t))
    ensures Sum(Outflow(sys, s, t)) == Sum(Column(s.flw, t))
  {
    BusTotalsSum(ToBuses(sys), Column(s.flw, t), sys.nb);
    BusTotalsSum(FromBuses(sys), Column(s.flw, t), sys.nb);
  }

  /** Summed over all buses, the production injected equals the total
      production of all units, provided every unit sits at an existing
      bus. */
  lemma GenerationTotal(sys: System, s: Schedule, t: nat)
    requires WellFormed(sys) && GenBusesValid(sys) && Shaped(sys, s)
    requires t < sys.nt()
    ensures Sum(Generation(sys, s, t)) == Sum(Column(s.pro, t))
  {
    BusTotalsSum(GenBuses(sys), Column(s.pro, t), sys.nb);
  }

  /** Per-period energy conservation of every feasible schedule: total
      production + total renewable availability + total shedding equals
      total demand + total spillage. */
  lemma GlobalBalance(sys: System, opt: Options, s: Schedule, t: nat)
    requires WellFormed(sys) && GenBusesValid(sys) && Feasible(sys, opt, s)
    requires t < sys.nt()
    ensures Sum(Column(s.pro, t)) + Sum(sys.ren[t][..sys.nb]) + Sum(Column(s.shd, t))
         == Sum(sys.dem[t]) + Sum(Column(s.spl, t))
  {
    var gen, ren, shd, inflow := Generation(sys, s, t), sys.ren[t][..sys.nb], Column(s.shd, t), Inflow(sys, s, t);
    var dem, spl, outflow := sys.dem[t], Column(s.spl, t), Outflow(sys, s, t);
    var supply := Plus(Plus(Plus(gen, ren), shd), inflow);
    var use := Plus(Plus(dem, spl), outflow);
    forall b | 0 <= b < sys.nb
      ensures supply[b] == use[b]
    {
      assert BusOk(sys, s, b, t);
    }
    assert supply == use;
    SumPlus(Plus(Plus(gen, ren), shd), inflow);
    SumPlus(Plus(gen, ren), shd);
    SumPlus(gen, ren);
    SumPlus(Plus(dem, spl), outflow);
    SumPlus(dem, spl);
    GenerationTotal(sys, s, t);
    FlowsCancel(sys, s, t);
  }
}
