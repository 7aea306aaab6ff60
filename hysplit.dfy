/** Results of the HYSPLIT model: a single NetCDF file in which air
    concentration and deposition share one field, told apart by the layer
    coordinate (layer top 0 is the ground). The total column is computed
    from the air concentration, and deposition is accumulated over time. */
module HysplitResults {
  import opened Common
  import opened Cubes
  import opened Workspace
  import opened AshModelResult

  const AirConcentrationNames: set<string> := {"Concentration Array - AS01", "Concentration Array - SUM "}

  /** The coordinate holding the top height of each layer. */
  const Layer: string := "Top height of each layer"

  const AirConcentrationName: string := "mass_concentration_of_volcanic_ash_in_air"
  const TotalColumnName: string := "atmosphere_mass_content_of_volcanic_ash"
  const TotalDepositionName: string := "surface_volcanic_ash_amount"

  /** CubeList.extract with a name constraint and a constraint on the values
      of the layer coordinate: every matching cube cut down to its matching
      layers, in list order. */
  function ExtractLayers(cubes: seq<Cube>, keep: int -> bool): (r: seq<Cube>)
    ensures |r| <= |cubes|
    ensures forall c :: c in r ==> c.name in AirConcentrationNames
  {
    if cubes == [] then []
    else
      var rest := ExtractLayers(cubes[1..], keep);
      var cut := ConstrainLevels(cubes[0], Layer, keep);
      if cubes[0].name in AirConcentrationNames && cut.Some? then
        assert forall c :: c in [cut.value] + rest ==> c == cut.value || c in rest;
        [cut.value] + rest
      else rest
  }

  /** Nothing is extracted exactly when no cube of the field has a layer
      that satisfies the constraint. */
  lemma {:induction false} ExtractLayersEmpty(cubes: seq<Cube>, keep: int -> bool)
    ensures ExtractLayers(cubes, keep) == [] <==> forall c :: c in cubes ==>
              c.name !in AirConcentrationNames || ConstrainLevels(c, Layer, keep).None?
  {
    if cubes != [] {
      ExtractLayersEmpty(cubes[1..], keep);
      assert forall c :: c in cubes ==> c == cubes[0] || c in cubes[1..];
    }
  }

  /** Every extracted cube keeps only layers that satisfy the constraint. */
  lemma {:induction false} ExtractedLayersKept(cubes: seq<Cube>, keep: int -> bool)
    ensures forall c :: c in ExtractLayers(cubes, keep) ==>
              exists k :: 0 <= k < |c.coords| && c.coords[k].name == Layer
                          && forall p :: p in c.coords[k].points ==> keep(p)
  {
    if cubes != [] {
      ExtractedLayersKept(cubes[1..], keep);
    }
  }

  /** The levels above the ground. */
  predicate AboveGround(z: int) {
    z > 0
  }

  /** The ground level. */
  predicate AtGround(z: int) {
    z == 0
  }

  /** Units '1' and 'unknown' mean the file gave none. */
  predicate NoUnits(u: Unit) {
    u.Dimensionless? || u.UnknownUnit?
  }

  /** The selected air-concentration layers, concatenated. */
  function AirJoined(cubes: seq<Cube>): Concatenated {
    ConcatenateCube(ExtractLayers(cubes, AboveGround))
  }

  /** The air_concentration property: tagged, renamed, and given 'g/m3'
      when the file has no units. */
  function AirField(cubes: seq<Cube>): Fetched {
    match AirJoined(cubes)
    case NothingToJoin => Absent
    case Conflict => Failed(ConcatenateError)
    case Joined(c) =>
      var tagged := Tag(c, AirConcentration).(name := AirConcentrationName);
      Present(if NoUnits(c.units) then tagged.(units := GramsPerCubicMetre) else tagged)
  }

  /** The warning air_concentration raises when it supplies the units. */
  function AirWarnings(cubes: seq<Cube>): seq<Warning> {
    match AirJoined(cubes)
    case Joined(c) => if NoUnits(c.units) then [MissingUnits(GramsPerCubicMetre)] else []
    case _ => []
  }

  /** Air concentration is found exactly when some cube of the field has a
      layer above the ground, and fails only when the layers do not join. */
  lemma AirFieldFound(cubes: seq<Cube>)
    ensures AirField(cubes).Absent? <==> forall c :: c in cubes ==>
              c.name !in AirConcentrationNames || ConstrainLevels(c, Layer, AboveGround).None?
    ensures AirField(cubes).Failed? ==> AirField(cubes).error == ConcatenateError
  {
    ExtractLayersEmpty(cubes, AboveGround);
  }

  /** What is found has only layers above the ground, is renamed and tagged,
      and always has units. */
  lemma AirFieldShape(cubes: seq<Cube>)
    requires AirField(cubes).Present?
    ensures var c := AirField(cubes).cube;
      && c.name == AirConcentrationName && !NoUnits(c.units)
      && (exists k :: 0 <= k < |c.coords| && c.coords[k].name == Layer
                      && forall p :: p in c.coords[k].points ==> p > 0)
      && "quantity" in c.attributes && c.attributes["quantity"] == AirConcentration.Label()
  {
    var parts := ExtractLayers(cubes, AboveGround);
    ExtractedLayersKept(cubes, AboveGround);
    JoinedAgrees(parts);
    var joined := AirJoined(cubes).cube;
    assert parts[0] in parts && parts[0].coords == joined.coords;
    assert AirField(cubes).cube.coords == joined.coords;
  }

  /** The warning is raised exactly when the units of the joined cube are
      replaced, and names the units put in their place. */
  lemma AirWarningsSpec(cubes: seq<Cube>)
    ensures var r := AirField(cubes);
      && (AirWarnings(cubes) != [] <==> r.Present? && AirJoined(cubes).cube.units != r.cube.units)
      && (AirWarnings(cubes) != [] ==> AirWarnings(cubes) == [MissingUnits(r.cube.units)]
                                       && r.cube.units == GramsPerCubicMetre)
  {
  }

  /** The thickness of each layer: the first top height, then the
      differences between successive tops. */
  function Thicknesses(tops: seq<int>): (r: seq<real>)
    ensures |r| == |tops|
  {
    seq(|tops|, i requires 0 <= i < |tops| => if i == 0 then tops[0] as real else (tops[i] - tops[i - 1]) as real)
  }

  function Sum(s: seq<real>): real {
    if s == [] then 0.0 else Sum(s[..|s| - 1]) + s[|s| - 1]
  }

  /** The layers stack up to the top of the highest one. */
  lemma {:induction false} ThicknessesSum(tops: seq<int>)
    requires tops != []
    ensures Sum(Thicknesses(tops)) == tops[|tops| - 1] as real
  {
    var n := |tops|;
    if n > 1 {
      ThicknessesSum(tops[..n - 1]);
      assert Thicknesses(tops)[..n - 1] == Thicknesses(tops[..n - 1]);
    }
  }

  /** Sum of value times weight, level by level. */
  function WeightedSum(values: seq<real>, weights: seq<real>): real
    requires |values| == |weights|
  {
    if values == [] then 0.0
    else WeightedSum(values[..|values| - 1], weights[..|weights| - 1]) + values[|values| - 1] * weights[|weights| - 1]
  }

  lemma {:induction false} WeightedSumOfConstant(values: seq<real>, weights: seq<real>, v: real)
    requires |values| == |weights|
    requires forall i :: 0 <= i < |values| ==> values[i] == v
    ensures WeightedSum(values, weights) == v * Sum(weights)
  {
    if values != [] {
      WeightedSumOfConstant(values[..|values| - 1], weights[..|weights| - 1], v);
    }
  }

  /** A cell of a four-dimensional grid; 0 outside it. */
  function Cell4(g: Grid4, t: nat, l: nat, y: nat, x: nat): real {
    if t < |g| && l < |g[t]| && y < |g[t][l]| && x < |g[t][l][y]| then g[t][l][y][x] else 0.0
  }

  /** The number of rows and columns of each map, taken from the first. */
  function Rows(g: Grid4): nat {
    if |g| > 0 && |g[0]| > 0 then |g[0][0]| else 0
  }

  function Cols(g: Grid4): nat {
    if |g| > 0 && |g[0]| > 0 && |g[0][0]| > 0 then |g[0][0][0]| else 0
  }

  /** The values down one column of the atmosphere. */
  function Column(g: Grid4, levels: nat, t: nat, y: nat, x: nat): (r: seq<real>)
    ensures |r| == levels
  {
    seq(levels, l requires 0 <= l < levels => Cell4(g, t, l, y, x))
  }

  /** The total column: at each time and cell, the concentrations of the
      layers weighted by their thicknesses and summed. */
  function ColumnLoad(g: Grid4, weights: seq<real>): (r: Grid3)
    ensures |r| == |g|
    ensures forall t, y, x :: 0 <= t < |g| && 0 <= y < Rows(g) && 0 <= x < Cols(g) ==>
              |r[t]| == Rows(g) && |r[t][y]| == Cols(g)
              && r[t][y][x] == WeightedSum(Column(g, |weights|, t, y, x), weights)
  {
    seq(|g|, t requires 0 <= t < |g| =>
      seq(Rows(g), y requires 0 <= y < Rows(g) =>
        seq(Cols(g), x requires 0 <= x < Cols(g) => WeightedSum(Column(g, |weights|, t, y, x), weights))))
  }

  /** The weights of one column of the atmosphere. */
  function LevelWeights(w: array4<real>, t: nat, y: nat, x: nat): (r: seq<real>)
    reads w
    requires t < w.Length0 && y < w.Length2 && x < w.Length3
    ensures |r| == w.Length1 && forall l :: 0 <= l < w.Length1 ==> r[l] == w[t, l, y, x]
  {
    seq(w.Length1, l requires 0 <= l < w.Length1 reads w => w[t, l, y, x])
  }

  /** What collapsed(SUM, weights) computes from the weights array. */
  function WeightedLevelSum(g: Grid4, w: array4<real>): (r: Grid3)
    reads w
    requires w.Length0 == |g| && w.Length2 == Rows(g) && w.Length3 == Cols(g)
    ensures |r| == |g|
    ensures forall t, y, x :: 0 <= t < |g| && 0 <= y < Rows(g) && 0 <= x < Cols(g) ==>
              |r[t]| == Rows(g) && |r[t][y]| == Cols(g)
              && r[t][y][x] == WeightedSum(Column(g, w.Length1, t, y, x), LevelWeights(w, t, y, x))
  {
    seq(|g|, t requires 0 <= t < |g| reads w =>
      seq(Rows(g), y requires 0 <= y < Rows(g) reads w =>
        seq(Cols(g), x requires 0 <= x < Cols(g) reads w =>
          WeightedSum(Column(g, w.Length1, t, y, x), LevelWeights(w, t, y, x)))))
  }

  function MinOf(s: seq<int>): (m: int)
    requires s != []
    ensures m in s && forall p :: p in s ==> m <= p
  {
    if |s| == 1 then s[0]
    else
      var rest := MinOf(s[1..]);
      assert forall p :: p in s ==> p == s[0] || p in s[1..];
      if s[0] <= rest then s[0] else rest
  }

  function MaxOf(s: seq<int>): (m: int)
    requires s != []
    ensures m in s && forall p :: p in s ==> p <= m
  {
    if |s| == 1 then s[0]
    else
      var rest := MaxOf(s[1..]);
      assert forall p :: p in s ==> p == s[0] || p in s[1..];
      if s[0] >= rest then s[0] else rest
  }

  /** The point of a collapsed coordinate: the middle of its range, cast
      back to the coordinate's integer type (numpy truncates toward zero). */
  function Midpoint(points: Points): (m: int)
    ensures MinOf(points) <= m <= MaxOf(points)
  {
    var s := MinOf(points) + MaxOf(points);
    if s >= 0 then s / 2 else -((-s) / 2)
  }

  /** The extent of axis 1 as the weights array has it: the levels of the
      first time step. Without a time step the grid does not record it, and
      it is taken to be the coordinate's `n` points. */
  function AxisOneExtent(g: Grid4, n: nat): nat {
    if |g| > 0 then |g[0]| else n
  }

  /** _calculate_total_column: the weighting by layer thickness and the
      collapse of the layer axis. On three-dimensional data (a file with a
      ground layer and a single layer above it) the weights cannot be
      indexed on axis 1, nor on four-axis data whose axis 1 has fewer levels
      than the layer coordinate has points. A layer coordinate that spans
      no axis cannot be collapsed. */
  function TotalColumnOf(c: Cube): Result<Cube> {
    match CoordIndex(c.coords, Layer)
    case None => Err(CoordinateNotFound(Layer))
    case Some(k) =>
      var z := c.coords[k];
      if c.data.Data3? then Err(IndexError)
      else if |z.points| > AxisOneExtent(c.data.g4, |z.points|) then Err(IndexError)
      else if !OnLevelAxis(c, k) then Err(CoordinateCollapse)
      else Ok(c.(coords := DropAxisOne(c.coords, k, Midpoint(z.points)),
                 data := Data3(ColumnLoad(c.data.g4, Thicknesses(z.points)))))
  }

  /** The weights of the collapse: an array of ones of the data's shape,
      whose slab at each layer is multiplied in place by that layer's
      thickness. Indexing a layer past axis 1 raises IndexError, reported
      as `fits` false. */
  method LayerWeights(frames: nat, levels: nat, rows: nat, cols: nat, thicknesses: seq<real>)
    returns (weights: array4<real>, fits: bool)
    ensures fresh(weights)
    ensures fits <==> |thicknesses| <= levels
    ensures weights.Length0 == frames && weights.Length1 == levels
            && weights.Length2 == rows && weights.Length3 == cols
    ensures fits ==> forall t, l, y, x :: 0 <= t < frames && 0 <= l < levels && 0 <= y < rows && 0 <= x < cols ==>
              weights[t, l, y, x] == if l < |thicknesses| then thicknesses[l] else 1.0
  {
    weights := new real[frames, levels, rows, cols]((t, l, y, x) => 1.0);
    var i := 0;
    while i < |thicknesses|
      invariant 0 <= i <= |thicknesses| && i <= levels
      invariant forall t, l, y, x :: 0 <= t < frames && 0 <= l < levels && 0 <= y < rows && 0 <= x < cols ==>
                  weights[t, l, y, x] == if l < i then thicknesses[l] else 1.0
    {
      if i == levels {
        return weights, false;
      }
      forall t, y, x | 0 <= t < frames && 0 <= y < rows && 0 <= x < cols {
        weights[t, i, y, x] := weights[t, i, y, x] * thicknesses[i];
      }
      i := i + 1;
    }
    fits := true;
  }

  /** Summing over the layer axis with an array that holds each layer's
      thickness at every cell of that layer is the column load. */
  lemma WeightedLevelSumIsColumnLoad(g: Grid4, w: array4<real>, thicknesses: seq<real>)
    requires w.Length0 == |g| && w.Length1 == |thicknesses| && w.Length2 == Rows(g) && w.Length3 == Cols(g)
    requires forall t, l, y, x :: 0 <= t < |g| && 0 <= l < |thicknesses| && 0 <= y < Rows(g) && 0 <= x < Cols(g) ==>
               w[t, l, y, x] == thicknesses[l]
    ensures WeightedLevelSum(g, w) == ColumnLoad(g, thicknesses)
  {
    var summed := WeightedLevelSum(g, w);
    var load := ColumnLoad(g, thicknesses);
    forall t, y, x | 0 <= t < |g| && 0 <= y < Rows(g) && 0 <= x < Cols(g)
      ensures summed[t][y][x] == load[t][y][x]
    {
      assert LevelWeights(w, t, y, x) == thicknesses;
    }
    forall t | 0 <= t < |g|
      ensures summed[t] == load[t]
    {
      forall y | 0 <= y < Rows(g)
        ensures summed[t][y] == load[t][y]
      {
      }
    }
  }

  /** _calculate_total_column, as the source computes it: an array of ones
      shaped like the data, each layer's slab multiplied by its thickness in
      place, then the weighted sum over the layer axis. */
  method CalculateTotalColumn(c: Cube) returns (r: Result<Cube>)
    ensures r == TotalColumnOf(c)
  {
    var k := CoordIndex(c.coords, Layer);
    if k.None? {
      return Err(CoordinateNotFound(Layer));
    }
    var z := c.coords[k.value];
    var thicknesses := Thicknesses(z.points);
    if c.data.Data3? {
      return Err(IndexError);
    }
    var g := c.data.g4;
    var weights, fits := LayerWeights(|g|, AxisOneExtent(g, |z.points|), Rows(g), Cols(g), thicknesses);
    if !fits {
      return Err(IndexError);
    }
    if !OnLevelAxis(c, k.value) {
      return Err(CoordinateCollapse);
    }
    var summed := WeightedLevelSum(g, weights);
    WeightedLevelSumIsColumnLoad(g, weights, thicknesses);
    return Ok(c.(coords := DropAxisOne(c.coords, k.value, Midpoint(z.points)), data := Data3(summed)));
  }

  /** Air of one concentration at every layer and cell gives a column load
      of that concentration times the height of the top layer. */
  lemma UniformColumn(g: Grid4, tops: seq<int>, v: real)
    requires tops != []
    requires forall t, l, y, x :: (0 <= t < |g| && 0 <= l < |tops| && 0 <= y < Rows(g)
               && 0 <= x < Cols(g)) ==> Cell4(g, t, l, y, x) == v
    ensures forall t, y, x :: 0 <= t < |g| && 0 <= y < Rows(g) && 0 <= x < Cols(g) ==>
              ColumnLoad(g, Thicknesses(tops))[t][y][x] == v * tops[|tops| - 1] as real
  {
    var w := Thicknesses(tops);
    ThicknessesSum(tops);
    forall t, y, x | 0 <= t < |g| && 0 <= y < Rows(g) && 0 <= x < Cols(g)
      ensures WeightedSum(Column(g, |w|, t, y, x), w) == v * tops[|tops| - 1] as real
    {
      WeightedSumOfConstant(Column(g, |w|, t, y, x), w, v);
    }
  }

  /** The total_column property: None without air concentration, otherwise
      the collapsed air concentration, tagged, renamed, in air-concentration
      units times metres. */
  function ColumnField(air: Fetched): Fetched {
    match air
    case Absent => Absent
    case Failed(e) => Failed(e)
    case Present(a) =>
      match TotalColumnOf(a)
      case Err(e) => Failed(e)
      case Ok(c) => Present(Tag(c, TotalColumn).(name := TotalColumnName, units := a.units.TimesMetre()))
  }

  /** The collapse keeps the cube's name, attributes, units and time steps,
      leaves one map per time step, and turns the layer coordinate into a
      scalar. It raises IndexError on data with one layer and on a layer
      coordinate longer than axis 1, CoordinateCollapseError on a scalar
      layer coordinate, and succeeds exactly when the coordinate spans
      axis 1. */
  lemma TotalColumnSpec(c: Cube)
    ensures var r := TotalColumnOf(c);
      && (CoordIndex(c.coords, Layer).None? ==> r == Err(CoordinateNotFound(Layer)))
      && (CoordIndex(c.coords, Layer).Some? && c.data.Data3? ==> r == Err(IndexError))
      && (CoordIndex(c.coords, Layer).Some? && c.data.Data4? ==>
            var z := c.coords[CoordIndex(c.coords, Layer).value];
            && (|c.data.g4| > 0 && |z.points| > |c.data.g4[0]| ==> r == Err(IndexError))
            && (z.dim.None? && |z.points| <= AxisOneExtent(c.data.g4, |z.points|) ==> r == Err(CoordinateCollapse)))
      && (r.Ok? <==> CoordIndex(c.coords, Layer).Some? && OnLevelAxis(c, CoordIndex(c.coords, Layer).value))
      && (r.Ok? ==> r.value.name == c.name && r.value.attributes == c.attributes && r.value.units == c.units
                    && r.value.time == c.time && r.value.data.Data3? && |r.value.data.g3| == c.data.Extent())
      && (r.Ok? ==> var k := CoordIndex(c.coords, Layer).value;
                    r.value.coords[k].dim.None? && |r.value.coords[k].points| == 1
                    && MinOf(c.coords[k].points) <= r.value.coords[k].points[0] <= MaxOf(c.coords[k].points))
  {
  }

  /** total_column is absent without air concentration, fails when air
      concentration or the collapse does, and is otherwise in the air
      concentration's units times metres. */
  lemma ColumnFieldSpec(air: Fetched)
    ensures var r := ColumnField(air);
      && (air.Absent? ==> r.Absent?)
      && (air.Failed? ==> r == air)
      && (air.Present? && TotalColumnOf(air.cube).Err? ==> r == Failed(TotalColumnOf(air.cube).error))
      && (r.Present? ==> air.Present? && r.cube.name == TotalColumnName
                         && r.cube.units == air.cube.units.TimesMetre()
                         && r.cube.data.Data3? && |r.cube.data.g3| == air.cube.data.Extent()
                         && r.cube.attributes["quantity"] == TotalColumn.Label())
  {
    if air.Present? {
      TotalColumnSpec(air.cube);
    }
  }

  /** The column field carries the tags of the joined cube for the column
      alone: tagging it for air first leaves no trace. */
  lemma ColumnTags(cubes: seq<Cube>)
    requires AirJoined(cubes).Joined?
    requires ColumnField(AirField(cubes)).Present?
    ensures ColumnField(AirField(cubes)).cube.attributes == Tag(AirJoined(cubes).cube, TotalColumn).attributes
  {
    var joined := AirJoined(cubes).cube;
    var air := AirField(cubes).cube;
    assert air.attributes == Tag(joined, AirConcentration).attributes;
    var collapsed := TotalColumnOf(air).value;
    assert collapsed.attributes == air.attributes by {
      TotalColumnSpec(air);
    }
    assert ColumnField(AirField(cubes)).cube.attributes == Tag(collapsed, TotalColumn).attributes;
    assert Tag(collapsed, TotalColumn).attributes == Tag(Tag(joined, AirConcentration), TotalColumn).attributes;
    RetagReplaces(joined, AirConcentration, TotalColumn);
  }

  /** Grams per cubic metre become grams per square metre. */
  lemma ColumnOfGramsPerCubicMetre(cubes: seq<Cube>)
    requires AirJoined(cubes).Joined? && NoUnits(AirJoined(cubes).cube.units)
    requires ColumnField(AirField(cubes)).Present?
    ensures ColumnField(AirField(cubes)).cube.units == GramsPerSquareMetre
  {
  }

  /** Element-wise sum of two maps; cells missing from `b` count as 0. */
  function AddGrid2(a: Grid2, b: Grid2): (r: Grid2)
    ensures |r| == |a| && forall i :: 0 <= i < |a| ==> |r[i]| == |a[i]|
    ensures forall i, j :: 0 <= i < |a| && 0 <= j < |a[i]| ==>
              r[i][j] == a[i][j] + (if i < |b| && j < |b[i]| then b[i][j] else 0.0)
  {
    seq(|a|, i requires 0 <= i < |a| =>
      seq(|a[i]|, j requires 0 <= j < |a[i]| => a[i][j] + (if i < |b| && j < |b[i]| then b[i][j] else 0.0)))
  }

  function AddGrid3(a: Grid3, b: Grid3): (r: Grid3)
    ensures |r| == |a| && forall i :: 0 <= i < |a| ==> r[i] == AddGrid2(a[i], if i < |b| then b[i] else [])
  {
    seq(|a|, i requires 0 <= i < |a| => AddGrid2(a[i], if i < |b| then b[i] else []))
  }

  /** numpy.cumsum along axis 0: each step is the previous total plus the
      step's own values. */
  function CumSum<X>(s: seq<X>, add: (X, X) -> X): (r: seq<X>)
    ensures |r| == |s|
    ensures s != [] ==> r[0] == s[0]
    ensures forall t {:trigger s[t]} :: 1 <= t < |s| ==> r[t] == add(r[t - 1], s[t])
  {
    if s == [] then []
    else
      var prior := CumSum(s[..|s| - 1], add);
      if |prior| == 0 then [s[0]] else prior + [add(prior[|prior| - 1], s[|s| - 1])]
  }

  function AccumulateOverTime(d: Data): (r: Data)
    ensures r.Ndim() == d.Ndim() && r.Extent() == d.Extent()
  {
    match d
    case Data3(g) => Data3(CumSum(g, AddGrid2))
    case Data4(g) => Data4(CumSum(g, AddGrid3))
  }

  /** The deposit of one cell over the first t + 1 steps. */
  function Deposited(g: Grid3, t: nat, y: nat, x: nat): real
    requires t < |g|
  {
    (if y < |g[t]| && x < |g[t][y]| then g[t][y][x] else 0.0) + (if t == 0 then 0.0 else Deposited(g, t - 1, y, x))
  }

  /** Each accumulated map holds, cell by cell, everything deposited up to
      that step. */
  lemma {:induction false} AccumulatedIsTotal(g: Grid3, t: nat, y: nat, x: nat)
    requires t < |g| && y < |g[0]| && x < |g[0][y]|
    ensures y < |CumSum(g, AddGrid2)[t]| && x < |CumSum(g, AddGrid2)[t][y]|
    ensures CumSum(g, AddGrid2)[t][y][x] == Deposited(g, t, y, x)
  {
    var r := CumSum(g, AddGrid2);
    if t > 0 {
      AccumulatedIsTotal(g, t - 1, y, x);
      assert r[t] == AddGrid2(r[t - 1], g[t]);
    }
  }

  /** Non-negative deposits never make an accumulated cell decrease. */
  lemma AccumulationNonDecreasing(g: Grid3, t: nat, y: nat, x: nat)
    requires 1 <= t < |g| && y < |g[0]| && x < |g[0][y]|
    requires forall s, i, j :: 0 <= s < |g| && 0 <= i < |g[s]| && 0 <= j < |g[s][i]| ==> g[s][i][j] >= 0.0
    ensures y < |CumSum(g, AddGrid2)[t - 1]| && x < |CumSum(g, AddGrid2)[t - 1][y]|
    ensures y < |CumSum(g, AddGrid2)[t]| && x < |CumSum(g, AddGrid2)[t][y]|
    ensures CumSum(g, AddGrid2)[t - 1][y][x] <= CumSum(g, AddGrid2)[t][y][x]
  {
    AccumulatedIsTotal(g, t, y, x);
    AccumulatedIsTotal(g, t - 1, y, x);
  }

  /** The ground-level cubes, concatenated. */
  function DepositionJoined(cubes: seq<Cube>): Concatenated {
    ConcatenateCube(ExtractLayers(cubes, AtGround))
  }

  /** total_deposition up to the units line: tagged, renamed, accumulated. */
  function DepositionBase(cubes: seq<Cube>): Fetched {
    match DepositionJoined(cubes)
    case NothingToJoin => Absent
    case Conflict => Failed(ConcatenateError)
    case Joined(c) => Present(Tag(c, TotalDeposition).(name := TotalDepositionName, data := AccumulateOverTime(c.data)))
  }

  /** The deposition field is found exactly when some cube of the field has
      a ground layer, and what is found is the ground layer accumulated over
      time. */
  lemma DepositionBaseSpec(cubes: seq<Cube>)
    ensures var r := DepositionBase(cubes);
      && (r.Absent? <==> forall c :: c in cubes ==>
            c.name !in AirConcentrationNames || ConstrainLevels(c, Layer, AtGround).None?)
      && (r.Failed? ==> r.error == ConcatenateError)
      && (r.Present? ==> DepositionJoined(cubes).Joined?
                         && r.cube.name == TotalDepositionName
                         && r.cube.data == AccumulateOverTime(DepositionJoined(cubes).cube.data)
                         && r.cube.attributes == Tag(DepositionJoined(cubes).cube, TotalDeposition).attributes)
      && (r.Present? ==> exists k :: 0 <= k < |r.cube.coords| && r.cube.coords[k].name == Layer
                                     && forall p :: p in r.cube.coords[k].points ==> p == 0)
  {
    var parts := ExtractLayers(cubes, AtGround);
    ExtractLayersEmpty(cubes, AtGround);
    if DepositionBase(cubes).Present? {
      ExtractedLayersKept(cubes, AtGround);
      JoinedAgrees(parts);
      var joined := DepositionJoined(cubes).cube;
      assert parts[0] in parts && parts[0].coords == joined.coords;
      assert DepositionBase(cubes).cube.coords == joined.coords;
    }
  }

  /** The total_deposition property: its units are read from the air
      concentration, so without air concentration the property fails with
      AttributeError on None. */
  function DepositionField(base: Fetched, air: Fetched): (r: Fetched)
    ensures !base.Present? ==> r == base
    ensures base.Present? && air.Absent? ==> r == Failed(NoneAttribute("units"))
    ensures base.Present? && air.Failed? ==> r == air
    ensures base.Present? && air.Present? ==> r == Present(base.cube.(units := air.cube.units.TimesMetre()))
  {
    match base
    case Present(c) =>
      (match air
       case Absent => Failed(NoneAttribute("units"))
       case Failed(e) => Failed(e)
       case Present(a) => Present(c.(units := a.units.TimesMetre())))
    case _ => base
  }

  /** The value each property computes. */
  function Field(cubes: seq<Cube>, q: Quantity): Fetched {
    match q
    case AirConcentration => AirField(cubes)
    case TotalColumn => ColumnField(AirField(cubes))
    case TotalDeposition => DepositionField(DepositionBase(cubes), AirField(cubes))
  }

  /** Whether computing a property reads the air_concentration property. */
  predicate ReadsAir(cubes: seq<Cube>, q: Quantity) {
    q == AirConcentration || q == TotalColumn || DepositionBase(cubes).Present?
  }

  /** total_column once air concentration is known: the collapse is done by
      _calculate_total_column. */
  method ColumnFromAir(air: Fetched) returns (r: Fetched)
    ensures r == ColumnField(air)
  {
    if air.Absent? {
      return Absent;
    }
    if air.Failed? {
      return air;
    }
    var column := CalculateTotalColumn(air.cube);
    if column.Err? {
      return Failed(column.error);
    }
    return Present(Tag(column.value, TotalColumn).(name := TotalColumnName, units := air.cube.units.TimesMetre()));
  }

  /** A file whose only field has layers above the ground and none at it has
      air concentration but no deposition. */
  lemma NoGroundLayerNoDeposition(cubes: seq<Cube>)
    requires forall c :: c in cubes ==> c.name in AirConcentrationNames
    requires forall c :: c in cubes ==> (CoordIndex(c.coords, Layer).Some? &&
               forall p :: p in c.coords[CoordIndex(c.coords, Layer).value].points ==> p > 0)
    ensures Field(cubes, TotalDeposition) == Absent
  {
    forall c | c in cubes
      ensures ConstrainLevels(c, Layer, AtGround).None?
    {
      NoGroundLayerDropped(c);
    }
    ExtractLayersEmpty(cubes, AtGround);
  }

  /** A cube whose layers are all above the ground has no ground layer to
      keep. */
  lemma NoGroundLayerDropped(c: Cube)
    requires CoordIndex(c.coords, Layer).Some?
    requires forall p :: p in c.coords[CoordIndex(c.coords, Layer).value].points ==> p > 0
    ensures ConstrainLevels(c, Layer, AtGround).None?
  {
    var k := CoordIndex(c.coords, Layer).value;
    var z := c.coords[k];
    assert z.points[0] in z.points;
    if OnLevelAxis(c, k) {
      forall i | 0 <= i < |z.points|
        ensures !AtGround(z.points[i])
      {
        assert z.points[i] in z.points;
      }
      KeptNone(z.points, AtGround);
    }
  }

  /** A field with a single layer, above the ground, keeps its layer axis
      (iris indexes it with slice(None)): air concentration stays
      four-dimensional, goes to plot_4d_cube, and has a total column. */
  lemma OneLayerAirKeepsAxis(c: Cube)
    requires c.name in AirConcentrationNames
    requires CoordIndex(c.coords, Layer).Some? && OnLevelAxis(c, CoordIndex(c.coords, Layer).value)
    requires |c.coords[CoordIndex(c.coords, Layer).value].points| == 1
    requires AboveGround(c.coords[CoordIndex(c.coords, Layer).value].points[0])
    ensures AirField([c]).Present? && AirField([c]).cube.data == c.data
    ensures PlotterFor(AirConcentration, AirField([c]).cube) == Plot4D
    ensures ColumnField(AirField([c])).Present?
  {
    var k := CoordIndex(c.coords, Layer).value;
    assert AllKept(c.coords[k].points, AboveGround) by {
      assert c.coords[k].points == [c.coords[k].points[0]];
    }
    assert ExtractLayers([c], AboveGround) == [c];
    var a := AirField([c]).cube;
    assert a.coords == c.coords;
  }

  class HysplitAshModelResult {
    const sourceData: Path
    const cubes: seq<Cube>
    var cache: map<Quantity, Fetched>
    /** Warnings raised so far, oldest first. */
    var warnings: seq<Warning>

    /** Every cached value is what the property computes, and exceptions
        are never cached. */
    predicate Valid()
      reads this
    {
      forall q :: q in cache ==> cache[q] == Field(cubes, q) && !cache[q].Failed?
    }

    constructor (source: Path, cubes: seq<Cube>)
      ensures sourceData == source && this.cubes == cubes && cache == map[] && warnings == [] && Valid()
    {
      sourceData := source;
      this.cubes := cubes;
      cache := map[];
      warnings := [];
    }

    /** HysplitAshModelResult(source): the loading error escapes. */
    static method Open(source: Source, store: Store) returns (r: Result<HysplitAshModelResult>)
      ensures LoadNetcdfSource(source, store).Err? <==> r.Err?
      ensures r.Err? ==> r.error == LoadNetcdfSource(source, store).error
      ensures r.Ok? ==> fresh(r.value) && r.value.Valid() && r.value.cache == map[] && r.value.warnings == []
                        && source.OnePath? && r.value.sourceData == source.path
                        && r.value.cubes == LoadNetcdfSource(source, store).value
    {
      var loaded := LoadNetcdfSource(source, store);
      if loaded.Err? {
        return Err(loaded.error);
      }
      var result := new HysplitAshModelResult(source.path, loaded.value);
      return Ok(result);
    }

    /** Caches a property's value; only values that did not fail are kept. */
    method Remember(q: Quantity, r: Fetched)
      requires Valid() && r == Field(cubes, q)
      modifies this
      ensures Valid() && warnings == old(warnings)
      ensures cache == (if r.Failed? then old(cache) else old(cache)[q := r])
    {
      if !r.Failed? {
        cache := cache[q := r];
      }
    }

    /** The air_concentration property. */
    method FetchAir() returns (r: Fetched)
      requires Valid()
      modifies this
      ensures Valid()
      ensures r == AirField(cubes)
      ensures AirConcentration in old(cache) ==> cache == old(cache) && warnings == old(warnings)
      ensures AirConcentration !in old(cache) ==>
                cache == (if r.Failed? then old(cache) else old(cache)[AirConcentration := r])
                && warnings == old(warnings) + AirWarnings(cubes)
    {
      if AirConcentration in cache {
        return cache[AirConcentration];
      }
      r := AirField(cubes);
      warnings := warnings + AirWarnings(cubes);
      Remember(AirConcentration, r);
    }

    /** The total_column property: reads air_concentration through its
        cache. */
    method FetchColumn() returns (r: Fetched)
      requires Valid()
      modifies this
      ensures Valid()
      ensures r == ColumnField(AirField(cubes))
      ensures TotalColumn in old(cache) ==> cache == old(cache) && warnings == old(warnings)
      ensures old(cache).Keys <= cache.Keys <= old(cache).Keys + {TotalColumn, AirConcentration}
      ensures TotalColumn in cache <==> !r.Failed?
      ensures TotalColumn !in old(cache) ==>
                warnings == old(warnings) + (if AirConcentration in old(cache) then [] else AirWarnings(cubes))
    {
      if TotalColumn in cache {
        return cache[TotalColumn];
      }
      var air := FetchAir();
      r := ColumnFromAir(air);
      Remember(TotalColumn, r);
    }

    /** The units line of total_deposition: air_concentration's units, read
        through its cache, times metres. */
    method WithAirUnits(base: Fetched) returns (r: Fetched)
      requires Valid() && base.Present?
      modifies this
      ensures Valid()
      ensures r == DepositionField(base, AirField(cubes))
      ensures cache.Keys == old(cache).Keys + (if AirField(cubes).Failed? then {} else {AirConcentration})
      ensures warnings == old(warnings) + (if AirConcentration in old(cache) then [] else AirWarnings(cubes))
    {
      var air := FetchAir();
      r := DepositionField(base, air);
    }

    /** The total_deposition property: reads air_concentration, through its
        cache, only once the deposition field is found. */
    method FetchDeposition() returns (r: Fetched)
      requires Valid()
      modifies this
      ensures Valid()
      ensures r == DepositionField(DepositionBase(cubes), AirField(cubes))
      ensures old(cache).Keys <= cache.Keys <= old(cache).Keys + {TotalDeposition, AirConcentration}
      ensures TotalDeposition in cache <==> !r.Failed?
      ensures TotalDeposition in old(cache) ==> cache == old(cache) && warnings == old(warnings)
      ensures TotalDeposition !in old(cache) ==>
                warnings == old(warnings) + (if DepositionBase(cubes).Present? && AirConcentration !in old(cache)
                                             then AirWarnings(cubes) else [])
    {
      if TotalDeposition in cache {
        return cache[TotalDeposition];
      }
      var base := DepositionBase(cubes);
      if base.Present? {
        r := WithAirUnits(base);
      } else {
        r := base;
      }
      Remember(TotalDeposition, r);
    }

    /** The three properties. total_column and total_deposition read
        air_concentration through its cache, so its warning is raised the
        first time any of them needs it, and only then. */
    method Fetch(q: Quantity) returns (r: Fetched)
      requires Valid()
      modifies this
      ensures Valid()
      ensures r == Field(cubes, q)
      ensures q in old(cache) ==> cache == old(cache) && warnings == old(warnings)
      ensures old(cache).Keys <= cache.Keys <= old(cache).Keys + {q, AirConcentration}
      ensures q in cache <==> !r.Failed?
      ensures q !in old(cache) ==>
                warnings == old(warnings) + (if ReadsAir(cubes, q) && AirConcentration !in old(cache)
                                             then AirWarnings(cubes) else [])
    {
      match q
      case AirConcentration => r := FetchAir();
      case TotalColumn => r := FetchColumn();
      case TotalDeposition => r := FetchDeposition();
    }

    /** plot_air_concentration, plot_total_column or plot_total_deposition. */
    method Plot(q: Quantity, outputDir: Path, fileExt: string, html: bool, options: PlotOptions, fs: FileSystem)
      returns (err: Option<Error>)
      requires Valid()
      modifies this, fs
      ensures Valid() && old(cache).Keys <= cache.Keys
      ensures var (e, outs) := PlotResult(q, Field(cubes, q), outputDir, fileExt, html, options, old(fs.IsDir(outputDir)));
        err == e && fs.outputs == old(fs.outputs) + outs
      ensures fs.dirs == old(fs.dirs)
      ensures q in old(cache) ==> warnings == old(warnings)
      ensures q !in old(cache) ==>
                warnings == old(warnings) + (if ReadsAir(cubes, q) && AirConcentration !in old(cache)
                                             then AirWarnings(cubes) else [])
    {
      var fetched := Fetch(q);
      err := PlotQuantity(q, fetched, outputDir, fileExt, html, options, fs);
    }
  }
}
