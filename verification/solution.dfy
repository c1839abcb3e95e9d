/** Reading a solved schedule back into result tables: the extraction of a
    doubly indexed variable into a row-per-first-index table, and the two
    layouts the results are kept in (entity x period, and period x entity).
    Rounding to two decimals for presentation is not modelled. */
module Solution {
  import opened Matrices
  import opened Network

  /** The five result tables: production, commitment status, flow, shed
      load and spilled renewable output. */
  datatype Tables = Tables(
    prod: seq<seq<real>>,
    stat: seq<seq<real>>,
    flow: seq<seq<real>>,
    shed: seq<seq<real>>,
    spil: seq<seq<real>>)

  /** The ordered index set 0 .. n-1. */
  function Range(n: nat): seq<int>
  {
    seq(n, i => i)
  }

  /** The values of a solved variable indexed over (0 .. rows-1) x (0 .. cols-1),
      keyed by index pair, as the modelling layer hands them out. */
  function VarOf(m: seq<seq<real>>): map<(int, int), real>
  {
    map i, j | 0 <= i < |m| && 0 <= j < |m[i]| :: (i, j) := m[i][j]
  }

  /** One row per element of index1, in order, holding the variable's value
      at every element of index2, in order. */
  method Pyomo2Df(v: map<(int, int), real>, index1: seq<int>, index2: seq<int>) returns (mat: seq<seq<real>>)
    requires forall a, c | 0 <= a < |index1| && 0 <= c < |index2| :: (index1[a], index2[c]) in v
    ensures Matrix(mat, |index1|, |index2|)
    ensures forall a, c | 0 <= a < |index1| && 0 <= c < |index2| :: mat[a][c] == v[(index1[a], index2[c])]
  {
    mat := [];
    var a := 0;
    while a < |index1|
      invariant 0 <= a <= |index1|
      invariant Matrix(mat, a, |index2|)
      invariant forall a', c | 0 <= a' < a && 0 <= c < |index2| :: mat[a'][c] == v[(index1[a'], index2[c])]
    {
      var row := [];
      var c := 0;
      while c < |index2|
        invariant 0 <= c <= |index2|
        invariant |row| == c
        invariant forall c' | 0 <= c' < c :: row[c'] == v[(index1[a], index2[c'])]
      {
        row := row + [v[(index1[a], index2[c])]];
        c := c + 1;
      }
      mat := mat + [row];
      a := a + 1;
    }
  }

  /** Extracting a variable over its own index ranges gives back exactly the
      table of its values. */
  method Extract(m: seq<seq<real>>, rows: nat, cols: nat) returns (mat: seq<seq<real>>)
    requires Matrix(m, rows, cols)
    ensures mat == m
  {
    var v := VarOf(m);
    assert forall a, c | 0 <= a < rows && 0 <= c < cols :: (a, c) in v && v[(a, c)] == m[a][c];
    mat := Pyomo2Df(v, Range(rows), Range(cols));
    forall a | 0 <= a < rows
      ensures mat[a] == m[a]
    {
      forall c | 0 <= c < cols
        ensures mat[a][c] == m[a][c]
      {
        assert Range(rows)[a] == a && Range(cols)[c] == c;
      }
    }
  }

  /** Results kept entity x period (a row per unit, line or bus): each table
      equals the solved values. */
  method ResultsByEntity(sys: System, s: Schedule) returns (r: Tables)
    requires Shaped(sys, s)
    ensures r == Tables(s.pro, s.u, s.flw, s.shd, s.spl)
  {
    var nt := sys.nt();
    var prod := Extract(s.pro, sys.ng(), nt);
    var stat := Extract(s.u, sys.ng(), nt);
    var flow := Extract(s.flw, sys.nl(), nt);
    var shed := Extract(s.shd, sys.nb, nt);
    var spil := Extract(s.spl, sys.nb, nt);
    r := Tables(prod, stat, flow, shed, spil);
  }

  /** A table built from a list of rows, transposed: with at least one row
      the result has `cols` rows (one per column); a table built from no rows
      has no columns either, so its transpose has no rows. */
  function TransposeFrame(m: seq<seq<real>>, cols: nat): (r: seq<seq<real>>)
    requires Matrix(m, |m|, cols)
    ensures |m| == 0 ==> r == []
    ensures |m| > 0 ==> Matrix(r, cols, |m|)
    ensures forall j, i | 0 <= j < |r| && 0 <= i < |m| :: r[j][i] == m[i][j]
  {
    if |m| == 0 then [] else Transpose(m, cols)
  }

  /** Results kept period x entity (each extracted table transposed): row t
      holds period t, so prod is nt x ng, flow nt x nl, shed and spil
      nt x nb, and entry [t][e] is the value of entity e in period t. A table
      over an empty entity set (no units, no lines, no buses) is empty. */
  method ResultsByPeriod(sys: System, s: Schedule) returns (r: Tables)
    requires Shaped(sys, s)
    ensures sys.ng() == 0 ==> r.prod == [] && r.stat == []
    ensures sys.nl() == 0 ==> r.flow == []
    ensures sys.nb == 0 ==> r.shed == [] && r.spil == []
    ensures sys.ng() > 0 ==> Matrix(r.prod, sys.nt(), sys.ng()) && Matrix(r.stat, sys.nt(), sys.ng())
    ensures sys.nl() > 0 ==> Matrix(r.flow, sys.nt(), sys.nl())
    ensures sys.nb > 0 ==> Matrix(r.shed, sys.nt(), sys.nb) && Matrix(r.spil, sys.nt(), sys.nb)
    ensures forall t, g | 0 <= t < sys.nt() && 0 <= g < sys.ng() ::
      r.prod[t][g] == s.pro[g][t] && r.stat[t][g] == s.u[g][t]
    ensures forall t, l | 0 <= t < sys.nt() && 0 <= l < sys.nl() :: r.flow[t][l] == s.flw[l][t]
    ensures forall t, b | 0 <= t < sys.nt() && 0 <= b < sys.nb ::
      r.shed[t][b] == s.shd[b][t] && r.spil[t][b] == s.spl[b][t]
  {
    var e := ResultsByEntity(sys, s);
    var nt := sys.nt();
    r := Tables(TransposeFrame(e.prod, nt), TransposeFrame(e.stat, nt), TransposeFrame(e.flow, nt),
                TransposeFrame(e.shed, nt), TransposeFrame(e.spil, nt));
  }
}
