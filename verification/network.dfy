/** The network-constrained unit-commitment model: the input tables, a
    candidate schedule (one value for every decision variable), the two
    configuration switches, and the constraint system as a feasibility
    predicate over exact reals.

    Index sets: generators g < ng, lines l < nl, buses b < nb, periods t < nt.
    Decision variables are tables indexed entity first, period second, as
    the model's variables are (`pro[g,t]`, `shd[b,t]`, `flw[l,t]`, ...);
    the demand and renewable tables are indexed period first, bus second,
    as they are read (`dem.iloc[t,b]`). */
module Network {
  import opened Sums
  import opened Matrices

  /** A thermal unit: the bus it injects into, its marginal cost and its
      minimum and maximum output when committed. */
  datatype Generator = Generator(bus: nat, cost: real, minOut: real, maxOut: real)

  /** A transmission line from bus `from` to bus `to`, with its susceptance
      and its flow capacity. */
  datatype Line = Line(from: nat, to: nat, sus: real, cap: real)

  /** The parsed system data. `nb` is the column count of the demand table,
      `nt` its row count; `shedCost` is the price of one unit of shed load. */
  datatype System = System(
    gens: seq<Generator>,
    lines: seq<Line>,
    nb: nat,
    dem: seq<seq<real>>,
    ren: seq<seq<real>>,
    shedCost: real)
  {
    function ng(): nat { |gens| }
    function nl(): nat { |lines| }
    function nt(): nat { |dem| }
  }

  /** The solve switches: `network` keeps the line capacity limits, `commit`
      makes commitment binary (otherwise it is relaxed to [0, 1]). */
  datatype Options = Options(network: bool, commit: bool)

  /** The defaults of the solve call: network limits on, binary commitment. */
  const DefaultOptions := Options(true, true)

  /** The default price of shed load. */
  const DefaultShedCost := 1000.0

  /** A value for every decision variable: the cost z, and production,
      commitment, shedding, spillage, angle and flow tables. */
  datatype Schedule = Schedule(
    z: real,
    pro: seq<seq<real>>,
    u: seq<seq<real>>,
    shd: seq<seq<real>>,
    spl: seq<seq<real>>,
    ang: seq<seq<real>>,
    flw: seq<seq<real>>)

  /** What building the model needs of the tables: the demand table has nb
      columns, the renewable table covers every (t, b) that is read, and
      every line ends at existing buses (an angle is read at both ends). */
  predicate WellFormed(sys: System)
  {
    && Matrix(sys.dem, sys.nt(), sys.nb)
    && |sys.ren| >= sys.nt()
    && (forall t | 0 <= t < sys.nt() :: |sys.ren[t]| >= sys.nb)
    && (forall l | 0 <= l < sys.nl() :: sys.lines[l].from < sys.nb && sys.lines[l].to < sys.nb)
  }

  /** Every generator sits at an existing bus. Building the model does not
      need this: a unit at another bus is simply left out of every balance. */
  predicate GenBusesValid(sys: System)
  {
    forall g | 0 <= g < sys.ng() :: sys.gens[g].bus < sys.nb
  }

  /** Non-negative demand, renewable availability and line capacities. */
  predicate NonNegativeData(sys: System)
    requires WellFormed(sys)
  {
    && (forall t, b | 0 <= t < sys.nt() && 0 <= b < sys.nb :: sys.dem[t][b] >= 0.0 && sys.ren[t][b] >= 0.0)
    && (forall l | 0 <= l < sys.nl() :: sys.lines[l].cap >= 0.0)
  }

  /** Every table of the schedule has its entity x period shape. */
  predicate Shaped(sys: System, s: Schedule)
  {
    && Matrix(s.pro, sys.ng(), sys.nt())
    && Matrix(s.u, sys.ng(), sys.nt())
    && Matrix(s.shd, sys.nb, sys.nt())
    && Matrix(s.spl, sys.nb, sys.nt())
    && Matrix(s.ang, sys.nb, sys.nt())
    && Matrix(s.flw, sys.nl(), sys.nt())
  }

  function GenBuses(sys: System): seq<nat>
  {
    seq(sys.ng(), g requires 0 <= g < sys.ng() => sys.gens[g].bus)
  }

  function FromBuses(sys: System): seq<nat>
  {
    seq(sys.nl(), l requires 0 <= l < sys.nl() => sys.lines[l].from)
  }

  function ToBuses(sys: System): seq<nat>
  {
    seq(sys.nl(), l requires 0 <= l < sys.nl() => sys.lines[l].to)
  }

  function Costs(sys: System): seq<real>
  {
    seq(sys.ng(), g requires 0 <= g < sys.ng() => sys.gens[g].cost)
  }

  /** Production injected at each bus in period t. */
  function Generation(sys: System, s: Schedule, t: nat): seq<real>
    requires Shaped(sys, s) && t < sys.nt()
  {
    BusTotals(GenBuses(sys), Column(s.pro, t), sys.nb)
  }

  /** Flow arriving at each bus in period t (lines whose `to` is the bus). */
  function Inflow(sys: System, s: Schedule, t: nat): seq<real>
    requires Shaped(sys, s) && t < sys.nt()
  {
    BusTotals(ToBuses(sys), Column(s.flw, t), sys.nb)
  }

  /** Flow leaving each bus in period t (lines whose `from` is the bus). */
  function Outflow(sys: System, s: Schedule, t: nat): seq<real>
    requires Shaped(sys, s) && t < sys.nt()
  {
    BusTotals(FromBuses(sys), Column(s.flw, t), sys.nb)
  }

  /** Production cost plus shedding cost of the given production and
      shedding tables. */
  function Cost(sys: System, pro: seq<seq<real>>, shd: seq<seq<real>>): real
    requires |pro| == sys.ng()
  {
    WeightedTotal(Costs(sys), pro) + WeightedTotal(Constant(|shd|, sys.shedCost), shd)
  }

  /** The admissible commitment values: {0, 1} when binary, [0, 1] when
      relaxed. */
  predicate CommitDomain(commit: bool, u: real)
  {
    if commit then u == 0.0 || u == 1.0 else 0.0 <= u <= 1.0
  }

  /** Production and commitment of one unit in one period: production is
      non-negative and lies between commitment times minimum and commitment
      times maximum. */
  predicate UnitOk(gen: Generator, commit: bool, u: real, p: real)
  {
    && p >= 0.0
    && CommitDomain(commit, u)
    && p >= u * gen.minOut
    && p <= u * gen.maxOut
  }

  /** Nodal energy balance at bus b in period t: production + renewable +
      shed + inflow equals demand + spill + outflow. */
  predicate Balanced(sys: System, s: Schedule, b: nat, t: nat)
    requires WellFormed(sys) && Shaped(sys, s)
    requires b < sys.nb && t < sys.nt()
  {
    Generation(sys, s, t)[b] + sys.ren[t][b] + s.shd[b][t] + Inflow(sys, s, t)[b]
      == sys.dem[t][b] + s.spl[b][t] + Outflow(sys, s, t)[b]
  }

  /** Every constraint on bus b in period t: non-negative shedding at most
      the demand, non-negative spillage at most the renewable availability,
      and the energy balance. */
  predicate BusOk(sys: System, s: Schedule, b: nat, t: nat)
    requires WellFormed(sys) && Shaped(sys, s)
    requires b < sys.nb && t < sys.nt()
  {
    && 0.0 <= s.shd[b][t] <= sys.dem[t][b]
    && 0.0 <= s.spl[b][t] <= sys.ren[t][b]
    && Balanced(sys, s, b, t)
  }

  /** DC flow on line l in period t: susceptance times the angle difference
      between its ends. */
  function DcFlow(sys: System, s: Schedule, l: nat, t: nat): real
    requires WellFormed(sys) && Shaped(sys, s)
    requires l < sys.nl() && t < sys.nt()
  {
    var line := sys.lines[l];
    line.sus * (s.ang[line.from][t] - s.ang[line.to][t])
  }

  /** |flow| is within the line's capacity. */
  predicate WithinCapacity(sys: System, s: Schedule, l: nat, t: nat)
    requires Shaped(sys, s)
    requires l < sys.nl() && t < sys.nt()
  {
    -sys.lines[l].cap <= s.flw[l][t] <= sys.lines[l].cap
  }

  /** Every constraint on line l in period t: the DC flow definition always,
      the capacity limits only when the network switch is on. */
  predicate LineOk(sys: System, network: bool, s: Schedule, l: nat, t: nat)
    requires WellFormed(sys) && Shaped(sys, s)
    requires l < sys.nl() && t < sys.nt()
  {
    && s.flw[l][t] == DcFlow(sys, s, l, t)
    && (network ==> WithinCapacity(sys, s, l, t))
  }

  /** The whole constraint system: the cost definition, the unit limits
      with the commitment domain, the bus constraints and the line
      constraints, for every index. */
  predicate Feasible(sys: System, opt: Options, s: Schedule)
    requires WellFormed(sys)
  {
    && Shaped(sys, s)
    && s.z == Cost(sys, s.pro, s.shd)
    && (forall g, t | 0 <= g < sys.ng() && 0 <= t < sys.nt() ::
          UnitOk(sys.gens[g], opt.commit, s.u[g][t], s.pro[g][t]))
    && (forall b, t | 0 <= b < sys.nb && 0 <= t < sys.nt() :: BusOk(sys, s, b, t))
    && (forall l, t | 0 <= l < sys.nl() && 0 <= t < sys.nt() :: LineOk(sys, opt.network, s, l, t))
  }
}
