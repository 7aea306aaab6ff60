/** The part of iris the package relies on, as values: a cube with its
    coordinates, attributes, units and data; selection of cubes from a list;
    concatenation of the selected cubes along time; constraints on the values
    of a coordinate; the maximum of the data; and what iris.load and the
    netCDF4 driver find in the files on disk. */
module Cubes {
  import opened Common

  /** Every iris coordinate has at least one point. */
  type Points = s: seq<int> | |s| > 0 witness [0]

  /** A coordinate: `dim` is the data axis it describes, None for a scalar
      coordinate. Heights and levels are whole numbers of metres. */
  datatype Coord = Coord(name: string, standardName: Option<string>, dim: Option<nat>, points: Points)

  /** The time coordinate, already decoded into calendar times; a time axis
      is always axis 0 of the data. */
  datatype TimeCoord = NoTime | ScalarTime(at: DateTime) | TimeAxis(times: seq<DateTime>)

  /** cube.coord('time').points[0], decoded: the coordinate may be missing,
      and an axis with no point has no first one. */
  function FirstTime(t: TimeCoord): (r: Result<DateTime>)
    ensures t.NoTime? <==> r == Err(CoordinateNotFound("time"))
    ensures t.ScalarTime? ==> r == Ok(t.at)
    ensures t.TimeAxis? ==> (r.Ok? <==> t.times != []) && (r.Ok? ==> r.value == t.times[0])
    ensures r.Err? ==> r.error == CoordinateNotFound("time") || r.error == IndexError
  {
    match t
    case NoTime => Err(CoordinateNotFound("time"))
    case ScalarTime(d) => Ok(d)
    case TimeAxis(ts) => if ts == [] then Err(IndexError) else Ok(ts[0])
  }

  /** Units: '1', 'unknown', or a mass unit times a power of metres
      ('g/m3' is MassMetres("g", -3); 'gr/m3', grains per cubic metre, is
      MassMetres("gr", -3)). */
  datatype Unit = Dimensionless | UnknownUnit | MassMetres(mass: string, metrePower: int) {
    /** cf_units multiplication by Unit('m'). */
    function TimesMetre(): (u: Unit)
      ensures MassMetres? ==> u == MassMetres(mass, metrePower + 1)
      ensures UnknownUnit? <==> u.UnknownUnit?
      ensures Dimensionless? ==> u == MassMetres("", 1)
    {
      match this
      case Dimensionless => MassMetres("", 1)
      case UnknownUnit => UnknownUnit
      case MassMetres(m, k) => MassMetres(m, k + 1)
    }
  }

  const GramsPerCubicMetre: Unit := MassMetres("g", -3)
  const GrainsPerCubicMetre: Unit := MassMetres("gr", -3)
  const GramsPerSquareMetre: Unit := MassMetres("g", -2)

  type Grid2 = seq<seq<real>>
  type Grid3 = seq<Grid2>
  type Grid4 = seq<Grid3>

  /** The data array: three or four dimensions, outermost axis first. */
  datatype Data = Data3(g3: Grid3) | Data4(g4: Grid4) {
    function Ndim(): nat {
      if Data3? then 3 else 4
    }

    /** Length of axis 0. */
    function Extent(): nat {
      if Data3? then |g3| else |g4|
    }
  }

  datatype Cube = Cube(name: string, coords: seq<Coord>, time: TimeCoord,
                       attributes: map<string, string>, units: Unit, data: Data)
  {
    function CoordNames(): (names: set<string>)
      ensures forall n :: n in names <==> exists c :: c in coords && c.name == n
    {
      set c | c in coords :: c.name
    }

    /** Standard names of the dimension coordinates (cube.dim_coords). */
    function DimStandardNames(): (names: set<Option<string>>)
      ensures forall n :: n in names <==> exists c :: c in coords && c.dim.Some? && c.standardName == n
    {
      set c | c in coords && c.dim.Some? :: c.standardName
    }

    /** cube.coord(name): the coordinate of that name, provided there is
        exactly one; iris raises CoordinateNotFoundError otherwise. */
    function CoordNamed(n: string): (r: Option<Coord>)
      ensures r.Some? ==> r.value in coords && r.value.name == n
      ensures r.Some? ==> forall c :: c in coords && c.name == n ==> c == r.value
      ensures r.None? <==> CoordIndex(coords, n).None?
    {
      match CoordIndex(coords, n)
      case None => None
      case Some(k) => Some(coords[k])
    }
  }

  /** Every cell of the data, row by row. */
  function Cells2(g: Grid2): seq<real> {
    if g == [] then [] else g[0] + Cells2(g[1..])
  }

  function Cells3(g: Grid3): seq<real> {
    if g == [] then [] else Cells2(g[0]) + Cells3(g[1..])
  }

  function Cells4(g: Grid4): seq<real> {
    if g == [] then [] else Cells3(g[0]) + Cells4(g[1..])
  }

  function Cells(d: Data): seq<real> {
    match d
    case Data3(g) => Cells3(g)
    case Data4(g) => Cells4(g)
  }

  function MaxOf(s: seq<real>): (m: real)
    requires s != []
    ensures m in s
    ensures forall x :: x in s ==> x <= m
  {
    if |s| == 1 then s[0]
    else
      var rest := MaxOf(s[1..]);
      assert forall x :: x in s ==> x == s[0] || x in s[1..];
      if s[0] >= rest then s[0] else rest
  }

  /** cube.data.max(): numpy raises ValueError on an array with no cells. */
  function DataMax(d: Data): (r: Result<real>)
    ensures r.Err? <==> Cells(d) == []
    ensures r.Err? ==> r.error == EmptyArray
    ensures r.Ok? ==> r.value in Cells(d) && forall x :: x in Cells(d) ==> x <= r.value
  {
    var cells := Cells(d);
    if cells == [] then Err(EmptyArray) else Ok(MaxOf(cells))
  }

  /** CubeList.extract with a cube_func constraint: the cubes it accepts. */
  function ExtractCubes(cubes: seq<Cube>, accept: Cube -> bool): (r: seq<Cube>)
    ensures forall c :: c in r <==> c in cubes && accept(c)
  {
    Filter(cubes, accept)
  }

  /** The outcome of CubeList.concatenate_cube. */
  datatype Concatenated =
    | NothingToJoin   // ValueError: an empty cube list
    | Joined(cube: Cube)
    | Conflict        // ConcatenateError: the cubes do not join into one

  /** Two cubes that iris can join end to end along their time axis. */
  predicate Joinable(a: Cube, b: Cube) {
    a.name == b.name && a.coords == b.coords && a.attributes == b.attributes
    && a.units == b.units && a.time.TimeAxis? && b.time.TimeAxis?
    && a.data.Ndim() == b.data.Ndim()
  }

  function JoinData(a: Data, b: Data): (r: Data)
    requires a.Ndim() == b.Ndim()
    ensures r.Ndim() == a.Ndim() && r.Extent() == a.Extent() + b.Extent()
  {
    match a
    case Data3(g) => Data3(g + b.g3)
    case Data4(g) => Data4(g + b.g4)
  }

  /** The cubes joined in list order: one cube is returned as it is. */
  function ConcatenateCube(cs: seq<Cube>): (r: Concatenated)
    ensures r == NothingToJoin <==> cs == []
    ensures |cs| == 1 ==> r == Joined(cs[0])
  {
    if cs == [] then NothingToJoin
    else if |cs| == 1 then Joined(cs[0])
    else
      match ConcatenateCube(cs[1..])
      case Joined(rest) =>
        if Joinable(cs[0], rest) then
          Joined(cs[0].(time := TimeAxis(cs[0].time.times + rest.time.times),
                        data := JoinData(cs[0].data, rest.data)))
        else Conflict
      case _ => Conflict
  }

  /** Every cube that was joined agrees with the result on everything but
      the time axis and the data. */
  lemma {:induction false} JoinedAgrees(cs: seq<Cube>)
    ensures var r := ConcatenateCube(cs);
      r.Joined? ==> forall c :: c in cs ==>
        c.name == r.cube.name && c.attributes == r.cube.attributes
        && c.coords == r.cube.coords && c.units == r.cube.units
        && c.data.Ndim() == r.cube.data.Ndim()
  {
    if |cs| > 1 {
      JoinedAgrees(cs[1..]);
      assert forall c :: c in cs ==> c == cs[0] || c in cs[1..];
    }
  }

  /** Indices of the points that satisfy `keep`, in increasing order. */
  function KeptIndices(points: seq<int>, keep: int -> bool): (idx: seq<nat>)
    ensures forall j :: 0 <= j < |idx| ==> idx[j] < |points| && keep(points[idx[j]])
    ensures forall i :: 0 <= i < |points| && keep(points[i]) ==> i in idx
    ensures forall j, k :: 0 <= j < k < |idx| ==> idx[j] < idx[k]
  {
    if points == [] then []
    else
      var prior := KeptIndices(points[..|points| - 1], keep);
      if keep(points[|points| - 1]) then prior + [|points| - 1] else prior
  }

  /** No point satisfies `keep`: no index is kept. */
  lemma {:induction false} KeptNone(points: seq<int>, keep: int -> bool)
    requires forall i :: 0 <= i < |points| ==> !keep(points[i])
    ensures KeptIndices(points, keep) == []
  {
    if points != [] {
      KeptNone(points[..|points| - 1], keep);
    }
  }

  /** Every time step of a four-dimensional grid has `n` levels. */
  predicate HasLevels(g: Grid4, n: nat) {
    forall t :: 0 <= t < |g| ==> |g[t]| == n
  }

  /** Axis 1 of a four-dimensional grid restricted to the listed levels. */
  function PickLevels(g: Grid4, idx: seq<nat>, n: nat): (r: Grid4)
    requires HasLevels(g, n)
    requires forall j :: 0 <= j < |idx| ==> idx[j] < n
    ensures |r| == |g| && HasLevels(r, |idx|)
    ensures forall t, j :: 0 <= t < |g| && 0 <= j < |idx| ==> r[t][j] == g[t][idx[j]]
  {
    seq(|g|, t requires 0 <= t < |g| => seq(|idx|, j requires 0 <= j < |idx| => g[t][idx[j]]))
  }

  /** Axis 1 of a four-dimensional grid at one level, leaving three axes. */
  function LevelSlab(g: Grid4, l: nat, n: nat): (r: Grid3)
    requires HasLevels(g, n) && l < n
    ensures |r| == |g| && forall t :: 0 <= t < |g| ==> r[t] == g[t][l]
  {
    seq(|g|, t requires 0 <= t < |g| => g[t][l])
  }

  /** The coordinates once axis 1 is dropped: coordinate k becomes a scalar
      at `point`, coordinates on later axes move down by one. */
  function DropAxisOne(coords: seq<Coord>, k: nat, point: int): (r: seq<Coord>)
    requires k < |coords|
    ensures |r| == |coords|
    ensures r[k] == coords[k].(dim := None, points := [point])
    ensures forall i :: 0 <= i < |coords| && i != k ==>
              r[i] == coords[i].(dim := if coords[i].dim.Some? && coords[i].dim.value > 1
                                         then Some(coords[i].dim.value - 1) else coords[i].dim)
  {
    seq(|coords|, i requires 0 <= i < |coords| =>
      if i == k then coords[k].(dim := None, points := [point])
      else if coords[i].dim.Some? && coords[i].dim.value > 1 then coords[i].(dim := Some(coords[i].dim.value - 1))
      else coords[i])
  }

  /** The position of the only coordinate called n, if there is exactly one. */
  function CoordIndex(coords: seq<Coord>, n: string): (r: Option<nat>)
    ensures r.Some? ==> r.value < |coords| && coords[r.value].name == n
    ensures r.Some? ==> forall i :: 0 <= i < |coords| && i != r.value ==> coords[i].name != n
    ensures r.None? ==> (forall i :: 0 <= i < |coords| ==> coords[i].name != n)
                        || (exists i, j :: 0 <= i < j < |coords| && coords[i].name == n && coords[j].name == n)
  {
    var idx := KeptIndicesOf(coords, n);
    if |idx| == 1 then Some(idx[0])
    else
      if |idx| >= 2 then assert coords[idx[0]].name == n && coords[idx[1]].name == n; None
      else None
  }

  function KeptIndicesOf(coords: seq<Coord>, n: string): (idx: seq<nat>)
    ensures forall j :: 0 <= j < |idx| ==> idx[j] < |coords| && coords[idx[j]].name == n
    ensures forall i :: 0 <= i < |coords| && coords[i].name == n ==> i in idx
    ensures forall j, k :: 0 <= j < k < |idx| ==> idx[j] < idx[k]
  {
    if coords == [] then []
    else
      var prior := KeptIndicesOf(coords[..|coords| - 1], n);
      if coords[|coords| - 1].name == n then prior + [|coords| - 1] else prior
  }

  /** Every point satisfies `keep`. */
  predicate AllKept(points: seq<int>, keep: int -> bool) {
    forall p :: p in points ==> keep(p)
  }

  /** Coordinate k spans axis 1 of four-dimensional data, one point per level. */
  predicate OnLevelAxis(c: Cube, k: nat) {
    k < |c.coords| && c.coords[k].dim == Some(1) && c.data.Data4? && HasLevels(c.data.g4, |c.coords[k].points|)
  }

  /** iris.Constraint(coord_values={n: keep}) applied to one cube. When every
      point matches, iris indexes the axis with slice(None) and the cube is
      kept as it is, whatever the number of points; a scalar coordinate that
      does not match drops the cube. Otherwise a coordinate on axis 1 of
      four-dimensional data keeps the matching levels; when exactly one
      level matches, iris removes the axis and the coordinate becomes scalar.
      No match drops the cube. */
  function ConstrainLevels(c: Cube, n: string, keep: int -> bool): (r: Option<Cube>)
    ensures r.Some? ==> r.value.name == c.name && r.value.attributes == c.attributes
                        && r.value.units == c.units && r.value.time == c.time
    ensures r.Some? ==> (exists k :: 0 <= k < |r.value.coords| && r.value.coords[k].name == n
                                      && forall p :: p in r.value.coords[k].points ==> keep(p))
    ensures CoordIndex(c.coords, n).None? ==> r.None?
    ensures CoordIndex(c.coords, n).Some? && AllKept(c.coords[CoordIndex(c.coords, n).value].points, keep) ==>
              r == Some(c)
    ensures CoordIndex(c.coords, n).Some? && !AllKept(c.coords[CoordIndex(c.coords, n).value].points, keep) ==>
              var k := CoordIndex(c.coords, n).value;
              var z := c.coords[k];
              var idx := KeptIndices(z.points, keep);
              && (r.Some? <==> OnLevelAxis(c, k) && idx != [])
              && (r.Some? ==> r.value == CutLevels(c, k, idx))
  {
    match CoordIndex(c.coords, n)
    case None => None
    case Some(k) =>
      var z := c.coords[k];
      if AllKept(z.points, keep) then Some(c)
      else if !OnLevelAxis(c, k) then None
      else
        var idx := KeptIndices(z.points, keep);
        if idx == [] then None
        else
          var r := CutLevels(c, k, idx);
          assert forall p :: p in r.coords[k].points ==> keep(p) by {
            forall p | p in r.coords[k].points
              ensures keep(p)
            {
              var j :| 0 <= j < |idx| && r.coords[k].points[j] == p;
            }
          }
          Some(r)
  }

  /** The cube cut down to the levels listed in `idx` (in increasing order)
      along the axis of coordinate k: one level leaves three axes and the
      coordinate scalar, several keep the axis with those levels. */
  function CutLevels(c: Cube, k: nat, idx: seq<nat>): (r: Cube)
    requires OnLevelAxis(c, k) && idx != []
    requires forall j :: 0 <= j < |idx| ==> idx[j] < |c.coords[k].points|
    ensures r.name == c.name && r.attributes == c.attributes && r.units == c.units && r.time == c.time
    ensures |r.coords| == |c.coords| && r.coords[k].name == c.coords[k].name
    ensures |r.coords[k].points| == |idx|
    ensures forall j :: 0 <= j < |idx| ==> r.coords[k].points[j] == c.coords[k].points[idx[j]]
    ensures |idx| == 1 ==>
              && r.coords[k] == c.coords[k].(dim := None, points := [c.coords[k].points[idx[0]]])
              && r.data.Data3? && |r.data.g3| == |c.data.g4|
              && forall t :: 0 <= t < |c.data.g4| ==> r.data.g3[t] == c.data.g4[t][idx[0]]
    ensures |idx| > 1 ==>
              && r.coords[k].dim == Some(1)
              && r.data.Data4? && |r.data.g4| == |c.data.g4| && HasLevels(r.data.g4, |idx|)
              && forall t, j :: 0 <= t < |c.data.g4| && 0 <= j < |idx| ==> r.data.g4[t][j] == c.data.g4[t][idx[j]]
  {
    var z := c.coords[k];
    if |idx| == 1 then
      var coords := DropAxisOne(c.coords, k, z.points[idx[0]]);
      c.(coords := coords, data := Data3(LevelSlab(c.data.g4, idx[0], |z.points|)))
    else
      var picked: Points := seq(|idx|, j requires 0 <= j < |idx| => z.points[idx[j]]);
      c.(coords := c.coords[k := z.(points := picked)], data := Data4(PickLevels(c.data.g4, idx, |z.points|)))
  }

  /** What a file on disk holds, as iris.load and netCDF4.Dataset see it. */
  datatype StoredFile = NetcdfFile(cubes: seq<Cube>) | NameTextFile(cubes: seq<Cube>) | OtherFile

  /** The files on disk, by path. */
  type Store = map<Path, StoredFile>

  /** netCDF4.Dataset(path) opens and closes without error. */
  predicate NetcdfOpens(store: Store, p: Path) {
    p in store && store[p].NetcdfFile?
  }

  /** iris.load(path): a missing file is an OSError, an unrecognised format
      a ValueError. */
  function IrisLoad(store: Store, p: Path): (r: Result<seq<Cube>>)
    ensures r.Err? <==> p !in store || store[p].OtherFile?
    ensures r.Err? ==> r.error == (if p !in store then FileMissing(p) else UnknownFormat(p))
    ensures r.Ok? ==> r.value == store[p].cubes
  {
    if p !in store then Err(FileMissing(p))
    else match store[p]
      case OtherFile => Err(UnknownFormat(p))
      case NetcdfFile(cs) => Ok(cs)
      case NameTextFile(cs) => Ok(cs)
  }

  /** iris.load(list of paths): the first file that cannot be loaded fails
      the whole load; otherwise the cubes of every file, in order. */
  function IrisLoadAll(store: Store, ps: seq<Path>): (r: Result<seq<Cube>>)
    ensures r.Ok? <==> forall i :: 0 <= i < |ps| ==> IrisLoad(store, ps[i]).Ok?
    ensures r.Ok? ==> forall c :: c in r.value <==> exists i :: 0 <= i < |ps| && c in IrisLoad(store, ps[i]).value
  {
    if ps == [] then Ok([])
    else
      match IrisLoad(store, ps[0])
      case Err(e) => Err(e)
      case Ok(first) =>
        match IrisLoadAll(store, ps[1..])
        case Err(e) => Err(e)
        case Ok(rest) =>
          assert forall i :: 1 <= i < |ps| ==> ps[i] == ps[1..][i - 1];
          Ok(first + rest)
  }
}
