/** The REFIR study script: twelve NAME runs (one experiment, four source
    models, three runs each) are analysed for the largest area where the air
    concentration exceeds 2 mg/m3 and for the place and time of the peak
    concentration; the results are tabulated and drawn as bars with error
    bars spanning the Min and Max runs. */
module AnalyseRefirOutputs {
  import opened Common
  import opened Cubes
  import opened Workspace
  import opened AshModelResult
  import NameResults

  const Experiments: seq<string> := ["30MinAv"]
  const Models: seq<string> := ["AllModels", "WindOnly", "EmpOnly", "MastinOnly"]
  const Labels: seq<string> := ["ALL", "WA", "NWA", "Mastin"]
  const Runs: seq<string> := ["Av", "Max", "Min"]

  /** The concentration (g/m3) above which a cell counts towards the advisory area. */
  const Threshold: real := 0.002

  // ---------------------------------------------------------------------
  // Horizontal slices of a cube
  // ---------------------------------------------------------------------

  /** One latitude-longitude slice: its flight level and time as looked up
      on the slice, and its cells row by row. */
  datatype Slice = Slice(level: Result<int>, time: Result<DateTime>, cells: seq<real>)

  /** slice.coord(n).points[0] for the slice at index a of axis 0 and index
      b of axis 1: a coordinate on a sliced axis contributes the point at
      that index, a scalar coordinate or one on a horizontal axis its first
      point. */
  function PointIn(c: Cube, n: string, a: nat, b: nat): (r: Result<int>)
    ensures c.CoordNamed(n).None? <==> r == Err(CoordinateNotFound(n))
    ensures r.Ok? ==> r.value in c.CoordNamed(n).value.points
  {
    match c.CoordNamed(n)
    case None => Err(CoordinateNotFound(n))
    case Some(co) =>
      var k := if co.dim == Some(0) then a else if co.dim == Some(1) && c.data.Data4? then b else 0;
      if k < |co.points| then Ok(co.points[k]) else Err(IndexError)
  }

  /** The decoded time of the slices at index a of axis 0 (the time axis). */
  function TimeIn(t: TimeCoord, a: nat): (r: Result<DateTime>)
    ensures t.NoTime? <==> r == Err(CoordinateNotFound("time"))
    ensures t.ScalarTime? ==> r == Ok(t.at)
    ensures t.TimeAxis? ==> (r.Ok? <==> a < |t.times|) && (r.Ok? ==> r.value == t.times[a])
  {
    match t
    case NoTime => Err(CoordinateNotFound("time"))
    case ScalarTime(d) => Ok(d)
    case TimeAxis(ts) => if a < |ts| then Ok(ts[a]) else Err(IndexError)
  }

  function SliceAt(c: Cube, g: Grid2, a: nat, b: nat): Slice {
    Slice(PointIn(c, "flight_level", a, b), TimeIn(c.time, a), Cells2(g))
  }

  /** cube.slices(['latitude', 'longitude']): every horizontal slice, the
      outer axes in row-major order. */
  function Slices(c: Cube): seq<Slice> {
    match c.data
    case Data3(g) => Slices3(c, g, 0)
    case Data4(g) => Slices4(c, g, 0)
  }

  function Slices3(c: Cube, g: Grid3, a: nat): seq<Slice>
    decreases |g| - a
  {
    if a >= |g| then [] else [SliceAt(c, g[a], a, 0)] + Slices3(c, g, a + 1)
  }

  function Slices4(c: Cube, g: Grid4, a: nat): seq<Slice>
    decreases |g| - a
  {
    if a >= |g| then [] else LevelSlices(c, g[a], a, 0) + Slices4(c, g, a + 1)
  }

  function LevelSlices(c: Cube, g: Grid3, a: nat, b: nat): seq<Slice>
    decreases |g| - b
  {
    if b >= |g| then [] else [SliceAt(c, g[b], a, b)] + LevelSlices(c, g, a, b + 1)
  }

  /** The cells of a run of slices, one after the other. */
  function AllCells(slices: seq<Slice>): seq<real> {
    if slices == [] then [] else slices[0].cells + AllCells(slices[1..])
  }

  lemma {:induction false} AllCellsAppend(s: seq<Slice>, t: seq<Slice>)
    ensures AllCells(s + t) == AllCells(s) + AllCells(t)
    decreases |s|
  {
    if s == [] {
      assert s + t == t;
    } else {
      assert (s + t)[1..] == s[1..] + t;
      AllCellsAppend(s[1..], t);
    }
  }

  lemma {:induction false} Slices3Cover(c: Cube, g: Grid3, a: nat)
    requires a <= |g|
    ensures AllCells(Slices3(c, g, a)) == Cells3(g[a..])
    decreases |g| - a
  {
    if a < |g| {
      Slices3Cover(c, g, a + 1);
      assert g[a..][1..] == g[a + 1..];
    }
  }

  lemma {:induction false} LevelSlicesCover(c: Cube, g: Grid3, a: nat, b: nat)
    requires b <= |g|
    ensures AllCells(LevelSlices(c, g, a, b)) == Cells3(g[b..])
    decreases |g| - b
  {
    if b < |g| {
      LevelSlicesCover(c, g, a, b + 1);
      assert g[b..][1..] == g[b + 1..];
    }
  }

  lemma {:induction false} Slices4Cover(c: Cube, g: Grid4, a: nat)
    requires a <= |g|
    ensures AllCells(Slices4(c, g, a)) == Cells4(g[a..])
    decreases |g| - a
  {
    if a < |g| {
      Slices4Cover(c, g, a + 1);
      LevelSlicesCover(c, g[a], a, 0);
      AllCellsAppend(LevelSlices(c, g[a], a, 0), Slices4(c, g, a + 1));
      assert g[a..][1..] == g[a + 1..];
      assert g[a][0..] == g[a];
    }
  }

  /** The slices partition the data: their cells, in order, are exactly the
      cube's cells. */
  lemma SlicesCoverData(c: Cube)
    ensures AllCells(Slices(c)) == Cells(c.data)
  {
    match c.data
    case Data3(g) =>
      Slices3Cover(c, g, 0);
      assert g[0..] == g;
    case Data4(g) =>
      Slices4Cover(c, g, 0);
      assert g[0..] == g;
  }

  /** A value among the cells lies in some slice, and a first one. */
  lemma {:induction false} FirstSliceWith(slices: seq<Slice>, x: real) returns (k: nat)
    requires x in AllCells(slices)
    ensures k < |slices| && x in slices[k].cells
    ensures forall j :: 0 <= j < k ==> x !in slices[j].cells
    decreases |slices|
  {
    if x in slices[0].cells {
      k := 0;
    } else {
      var k' := FirstSliceWith(slices[1..], x);
      k := k' + 1;
      assert forall j :: 1 <= j < k ==> slices[j] == slices[1..][j - 1];
    }
  }

  /** Every cell of a slice is among the cells of the run. */
  lemma {:induction false} SliceCellsInAll(slices: seq<Slice>, k: nat, x: real)
    requires k < |slices| && x in slices[k].cells
    ensures x in AllCells(slices)
    decreases k
  {
    if k > 0 {
      SliceCellsInAll(slices[1..], k - 1, x);
    }
  }

  // ---------------------------------------------------------------------
  // advisory_area: the slice with the largest area above the threshold
  // ---------------------------------------------------------------------

  /** A flight level, a time and the value found there. */
  datatype Peak = Peak(level: int, time: DateTime, value: real)

  /** The area of the cells whose concentration is strictly above the
      threshold: the sum of the cell areas selected by the mask. */
  function MaskedSum(cells: seq<real>, areas: seq<real>, threshold: real): real
    requires |cells| == |areas|
  {
    if cells == [] then 0.0
    else (if cells[0] > threshold then areas[0] else 0.0) + MaskedSum(cells[1..], areas[1..], threshold)
  }

  /** No cell above the threshold: no area. */
  lemma {:induction false} MaskedSumNone(cells: seq<real>, areas: seq<real>, threshold: real)
    requires |cells| == |areas|
    requires forall i :: 0 <= i < |cells| ==> cells[i] <= threshold
    ensures MaskedSum(cells, areas, threshold) == 0.0
    decreases |cells|
  {
    if cells != [] {
      MaskedSumNone(cells[1..], areas[1..], threshold);
    }
  }

  /** With areas that are not negative, raising the threshold never grows
      the area, and the area is never negative. */
  lemma {:induction false} MaskedSumAntitone(cells: seq<real>, areas: seq<real>, low: real, high: real)
    requires |cells| == |areas| && low <= high
    requires forall i :: 0 <= i < |areas| ==> areas[i] >= 0.0
    ensures 0.0 <= MaskedSum(cells, areas, high) <= MaskedSum(cells, areas, low)
    decreases |cells|
  {
    if cells != [] {
      MaskedSumAntitone(cells[1..], areas[1..], low, high);
    }
  }

  /** cell_areas[xy_slice.data > threshold].sum(): a mask whose shape is not
      the shape of the areas is an IndexError. */
  function AreaAbove(cells: seq<real>, areas: seq<real>, threshold: real): (r: Result<real>)
    ensures r.Err? <==> |cells| != |areas|
    ensures r.Err? ==> r.error == IndexError
  {
    if |cells| != |areas| then Err(IndexError) else Ok(MaskedSum(cells, areas, threshold))
  }

  /** One turn of the loop of advisory_area: the flight level, then the
      time, then the area above the threshold. */
  function AreaVisit(s: Slice, areas: seq<real>, threshold: real): (r: Result<Peak>)
    ensures r.Ok? <==> s.level.Ok? && s.time.Ok? && |s.cells| == |areas|
    ensures r.Ok? ==> r.value.level == s.level.value && r.value.time == s.time.value
  {
    match s.level
    case Err(e) => Err(e)
    case Ok(z) =>
      match s.time
      case Err(e) => Err(e)
      case Ok(t) =>
        match AreaAbove(s.cells, areas, threshold)
        case Err(e) => Err(e)
        case Ok(x) => Ok(Peak(z, t, x))
  }

  /** The largest area so far: max_area starts at 0. */
  function MaxArea(best: Option<Peak>): real {
    if best.None? then 0.0 else best.value.value
  }

  /** The state of the loop of advisory_area after the first n slices: the
      slice kept so far (None while no area has exceeded 0), or the error
      that ended the loop. An area replaces the kept one only when it is
      strictly larger. */
  function Best(slices: seq<Slice>, areas: seq<real>, threshold: real, n: nat): Result<Option<Peak>>
    requires n <= |slices|
  {
    if n == 0 then Ok(None)
    else
      match Best(slices, areas, threshold, n - 1)
      case Err(e) => Err(e)
      case Ok(best) =>
        match AreaVisit(slices[n - 1], areas, threshold)
        case Err(e) => Err(e)
        case Ok(p) => Ok(if p.value > MaxArea(best) then Some(p) else best)
  }

  /** The loop ends in an error exactly when some slice fails, and the error
      is that of the first failing slice. */
  lemma {:induction false} BestFails(slices: seq<Slice>, areas: seq<real>, threshold: real, n: nat)
    requires n <= |slices|
    ensures Best(slices, areas, threshold, n).Ok? <==>
      forall j :: 0 <= j < n ==> AreaVisit(slices[j], areas, threshold).Ok?
    ensures Best(slices, areas, threshold, n).Err? ==>
      exists k :: 0 <= k < n && AreaVisit(slices[k], areas, threshold) == Err(Best(slices, areas, threshold, n).error)
        && forall j :: 0 <= j < k ==> AreaVisit(slices[j], areas, threshold).Ok?
  {
    if n > 0 {
      BestFails(slices, areas, threshold, n - 1);
    }
  }

  /** Once the loop has failed, the later slices change nothing. */
  lemma {:induction false} BestFailureStays(slices: seq<Slice>, areas: seq<real>, threshold: real, i: nat, n: nat)
    requires i <= n <= |slices|
    requires Best(slices, areas, threshold, i).Err?
    ensures Best(slices, areas, threshold, n) == Best(slices, areas, threshold, i)
    decreases n - i
  {
    if i < n {
      BestFailureStays(slices, areas, threshold, i, n - 1);
    }
  }

  /** When no slice fails, the slice kept is the first one with the largest
      area, and its area is positive; nothing is kept exactly when no area
      is positive. */
  lemma {:induction false} BestIsFirstLargest(slices: seq<Slice>, areas: seq<real>, threshold: real, n: nat)
    requires n <= |slices|
    requires Best(slices, areas, threshold, n).Ok?
    ensures var best := Best(slices, areas, threshold, n).value;
      && (forall j :: 0 <= j < n ==>
            AreaVisit(slices[j], areas, threshold).Ok? && AreaVisit(slices[j], areas, threshold).value.value <= MaxArea(best))
      && (best.None? <==> forall j :: 0 <= j < n ==> AreaVisit(slices[j], areas, threshold).value.value <= 0.0)
      && (best.Some? ==>
            && best.value.value > 0.0
            && exists k :: 0 <= k < n && AreaVisit(slices[k], areas, threshold) == Ok(best.value)
                 && forall j :: 0 <= j < k ==> AreaVisit(slices[j], areas, threshold).value.value < best.value.value)
  {
    if n > 0 {
      BestIsFirstLargest(slices, areas, threshold, n - 1);
    }
  }

  /** What advisory_area returns for a list of slices and the cell areas:
      the kept slice, or the UnboundLocalError of reading max_flight_level
      when no area was ever larger than 0. */
  function Scan(slices: seq<Slice>, areas: seq<real>, threshold: real): Result<Peak> {
    match Best(slices, areas, threshold, |slices|)
    case Err(e) => Err(e)
    case Ok(None) => Err(UnboundLocal("max_flight_level"))
    case Ok(Some(p)) => Ok(p)
  }

  /** The result is the first slice with the largest positive area; with
      every slice readable, the only error is that no area is positive. */
  lemma ScanIsFirstLargest(slices: seq<Slice>, areas: seq<real>, threshold: real)
    requires forall j :: 0 <= j < |slices| ==> AreaVisit(slices[j], areas, threshold).Ok?
    ensures var r := Scan(slices, areas, threshold);
      && (r.Err? <==> forall j :: 0 <= j < |slices| ==> AreaVisit(slices[j], areas, threshold).value.value <= 0.0)
      && (r.Err? ==> r.error == UnboundLocal("max_flight_level"))
      && (r.Ok? ==>
            && r.value.value > 0.0
            && (forall j :: 0 <= j < |slices| ==> AreaVisit(slices[j], areas, threshold).value.value <= r.value.value)
            && exists k :: 0 <= k < |slices| && AreaVisit(slices[k], areas, threshold) == Ok(r.value)
                 && forall j :: 0 <= j < k ==> AreaVisit(slices[j], areas, threshold).value.value < r.value.value)
  {
    BestFails(slices, areas, threshold, |slices|);
    BestIsFirstLargest(slices, areas, threshold, |slices|);
  }

  /** With a slice that fails, the result is the error of the first one. */
  lemma ScanFails(slices: seq<Slice>, areas: seq<real>, threshold: real, k: nat)
    requires k < |slices| && AreaVisit(slices[k], areas, threshold).Err?
    requires forall j :: 0 <= j < k ==> AreaVisit(slices[j], areas, threshold).Ok?
    ensures Scan(slices, areas, threshold) == AreaVisit(slices[k], areas, threshold)
  {
    BestFails(slices, areas, threshold, |slices|);
    BestFails(slices, areas, threshold, k + 1);
    BestFailureStays(slices, areas, threshold, k + 1, |slices|);
  }

  /** advisory_area(result, threshold) for the air concentration the
      accessor returned: None has no 'slices'; the cell areas come from the
      first slice, and a cube without slices stops the iterator. The cell
      areas of the horizontal grid are given by `areaWeights`. */
  function AdvisoryAreaOf(air: Fetched, areaWeights: Cube -> Result<seq<real>>, threshold: real): (r: Result<Peak>)
    ensures air.Absent? ==> r == Err(NoneAttribute("slices"))
    ensures air.Failed? ==> r == Err(air.error)
    ensures air.Present? && Slices(air.cube) == [] ==> r == Err(StopIteration)
    ensures air.Present? && Slices(air.cube) != [] ==>
      r == match areaWeights(air.cube)
           case Err(e) => Err(e)
           case Ok(areas) => Scan(Slices(air.cube), areas, threshold)
  {
    match air
    case Absent => Err(NoneAttribute("slices"))
    case Failed(e) => Err(e)
    case Present(c) =>
      var slices := Slices(c);
      if slices == [] then Err(StopIteration)
      else
        match areaWeights(c)
        case Err(e) => Err(e)
        case Ok(areas) => Scan(slices, areas, threshold)
  }

  /** advisory_area: the air concentration, the cell areas of its first
      slice, then the scan. */
  method AdvisoryArea(air: Fetched, areaWeights: Cube -> Result<seq<real>>, threshold: real) returns (r: Result<Peak>)
    ensures r == AdvisoryAreaOf(air, areaWeights, threshold)
  {
    if air.Absent? {
      return Err(NoneAttribute("slices"));
    } else if air.Failed? {
      return Err(air.error);
    }
    var slices := Slices(air.cube);
    if slices == [] {
      return Err(StopIteration);
    }
    var weights := areaWeights(air.cube);
    if weights.Err? {
      return Err(weights.error);
    }
    r := ScanSlices(slices, weights.value, threshold);
  }

  /** The loop of advisory_area, keeping the strictly largest area. */
  method ScanSlices(slices: seq<Slice>, areas: seq<real>, threshold: real) returns (r: Result<Peak>)
    ensures r == Scan(slices, areas, threshold)
  {
    var best: Option<Peak> := None;
    var maxArea := 0.0;
    var i := 0;
    while i < |slices|
      invariant 0 <= i <= |slices|
      invariant Best(slices, areas, threshold, i) == Ok(best)
      invariant maxArea == MaxArea(best)
    {
      var visit := AreaVisit(slices[i], areas, threshold);
      if visit.Err? {
        BestFailureStays(slices, areas, threshold, i + 1, |slices|);
        return Err(visit.error);
      }
      if visit.value.value > maxArea {
        best := Some(visit.value);
        maxArea := visit.value.value;
      }
      i := i + 1;
    }
    if best.None? {
      return Err(UnboundLocal("max_flight_level"));
    }
    return Ok(best.value);
  }

  // ---------------------------------------------------------------------
  // max_concentration_data: the first slice holding the maximum
  // ---------------------------------------------------------------------

  /** xy_slice.data.max(): numpy raises ValueError on an empty slice. */
  function SliceMax(cells: seq<real>): (r: Result<real>)
    ensures r.Err? <==> cells == []
    ensures r.Err? ==> r.error == EmptyArray
    ensures r.Ok? ==> r.value in cells && forall x :: x in cells ==> x <= r.value
  {
    if cells == [] then Err(EmptyArray) else Ok(MaxOf(cells))
  }

  /** The loop of max_concentration_data from some slice on, for the
      maximum m of the whole cube: the flight level, the time, then the
      comparison; the loop breaks at the first slice whose maximum equals m,
      and when none does the last slice's level and time remain. Reading
      flight_level after a loop that never ran is an UnboundLocalError. */
  function FirstAtMax(slices: seq<Slice>, m: real): Result<Peak>
    decreases |slices|
  {
    if slices == [] then Err(UnboundLocal("flight_level"))
    else
      var s := slices[0];
      match s.level
      case Err(e) => Err(e)
      case Ok(z) =>
        match s.time
        case Err(e) => Err(e)
        case Ok(t) =>
          match SliceMax(s.cells)
          case Err(e) => Err(e)
          case Ok(x) => if x == m || |slices| == 1 then Ok(Peak(z, t, m)) else FirstAtMax(slices[1..], m)
  }

  /** A slice can be read: its level, its time and a maximum. */
  predicate Readable(s: Slice) {
    s.level.Ok? && s.time.Ok? && s.cells != []
  }

  /** The first slice whose maximum is m is the one reported. */
  lemma {:induction false} FirstAtMaxFinds(slices: seq<Slice>, m: real, k: nat)
    requires k < |slices|
    requires Readable(slices[k]) && MaxOf(slices[k].cells) == m
    requires forall j :: 0 <= j < k ==> Readable(slices[j]) && MaxOf(slices[j].cells) != m
    ensures FirstAtMax(slices, m) == Ok(Peak(slices[k].level.value, slices[k].time.value, m))
    decreases k
  {
    if k > 0 {
      FirstAtMaxFinds(slices[1..], m, k - 1);
    }
  }

  /** max_concentration_data for the air concentration the accessor
      returned: None has no 'data', and the maximum of the whole cube is
      taken before the loop. */
  function MaxConcentrationOf(air: Fetched): (r: Result<Peak>)
    ensures air.Absent? ==> r == Err(NoneAttribute("data"))
    ensures air.Failed? ==> r == Err(air.error)
    ensures air.Present? && Cells(air.cube.data) == [] ==> r == Err(EmptyArray)
    ensures r.Ok? ==> air.Present? && r.value.value == DataMax(air.cube.data).value
  {
    match air
    case Absent => Err(NoneAttribute("data"))
    case Failed(e) => Err(e)
    case Present(c) =>
      match DataMax(c.data)
      case Err(e) => Err(e)
      case Ok(m) =>
        var r := FirstAtMax(Slices(c), m);
        assert r.Ok? ==> r.value.value == m by {
          FirstAtMaxValue(Slices(c), m);
        }
        r
  }

  lemma {:induction false} FirstAtMaxValue(slices: seq<Slice>, m: real)
    ensures FirstAtMax(slices, m).Ok? ==> FirstAtMax(slices, m).value.value == m
    decreases |slices|
  {
    if |slices| > 1 {
      FirstAtMaxValue(slices[1..], m);
    }
  }

  /** In a cube whose slices can all be read, the maximum is reported at
      the level and time of the first slice that holds it. */
  lemma MaxConcentrationAtFirstHolder(c: Cube)
    requires Cells(c.data) != []
    requires forall j :: 0 <= j < |Slices(c)| ==> Readable(Slices(c)[j])
    ensures var r := MaxConcentrationOf(Present(c));
      && r.Ok? && r.value.value == DataMax(c.data).value
      && exists k :: 0 <= k < |Slices(c)| && Readable(Slices(c)[k])
           && DataMax(c.data).value in Slices(c)[k].cells
           && (forall j :: 0 <= j < k ==> DataMax(c.data).value !in Slices(c)[j].cells)
           && r.value.level == Slices(c)[k].level.value && r.value.time == Slices(c)[k].time.value
  {
    var slices := Slices(c);
    var m := DataMax(c.data).value;
    SlicesCoverData(c);
    var k := FirstSliceWith(slices, m);
    forall j | 0 <= j <= k
      ensures MaxOf(slices[j].cells) <= m
    {
      var x := MaxOf(slices[j].cells);
      SliceCellsInAll(slices, j, x);
    }
    assert MaxOf(slices[k].cells) == m;
    FirstAtMaxFinds(slices, m, k);
  }

  /** max_concentration_data: the maximum of the whole cube, then the
      search for it slice by slice. */
  method MaxConcentrationData(air: Fetched) returns (r: Result<Peak>)
    ensures r == MaxConcentrationOf(air)
  {
    if air.Absent? {
      return Err(NoneAttribute("data"));
    } else if air.Failed? {
      return Err(air.error);
    }
    var top := DataMax(air.cube.data);
    if top.Err? {
      return Err(top.error);
    }
    r := SearchSlices(Slices(air.cube), top.value);
  }

  /** The loop of max_concentration_data, with its break. */
  method SearchSlices(slices: seq<Slice>, m: real) returns (r: Result<Peak>)
    ensures r == FirstAtMax(slices, m)
  {
    var last: Option<(int, DateTime)> := None;
    var i := 0;
    while i < |slices|
      invariant 0 <= i <= |slices|
      invariant last.None? <==> i == 0
      invariant i < |slices| ==> FirstAtMax(slices, m) == FirstAtMax(slices[i..], m)
      invariant i == |slices| && last.Some? ==> FirstAtMax(slices, m) == Ok(Peak(last.value.0, last.value.1, m))
    {
      var s := slices[i];
      assert slices[i..][0] == s && slices[i..][1..] == slices[i + 1..];
      if s.level.Err? {
        return Err(s.level.error);
      }
      if s.time.Err? {
        return Err(s.time.error);
      }
      var x := SliceMax(s.cells);
      if x.Err? {
        return Err(x.error);
      }
      last := Some((s.level.value, s.time.value));
      if x.value == m {
        break;
      }
      i := i + 1;
    }
    if last.None? {
      return Err(UnboundLocal("flight_level"));
    }
    return Ok(Peak(last.value.0, last.value.1, m));
  }

  // ---------------------------------------------------------------------
  // The runs, analyse_run and the summary table
  // ---------------------------------------------------------------------

  /** The index of a row of the summary table: experiment, model, run. */
  datatype RunKey = RunKey(experiment: string, model: string, run: string)

  /** The runs in the order the three nested loops of main visit them:
      the run varies fastest, the experiment slowest. */
  function RunKeys(): (keys: seq<RunKey>)
    ensures |keys| == |Experiments| * |Models| * |Runs|
  {
    seq(|Experiments| * |Models| * |Runs|, i requires 0 <= i < |Experiments| * |Models| * |Runs| =>
      RunKey(Experiments[i / (|Models| * |Runs|)], Models[i / |Runs| % |Models|], Runs[i % |Runs|]))
  }

  /** The run at position (e, m, r) of the nested loops. */
  lemma RunKeyAt(e: nat, m: nat, r: nat)
    requires e < |Experiments| && m < |Models| && r < |Runs|
    ensures (e * |Models| + m) * |Runs| + r < |RunKeys()|
    ensures RunKeys()[(e * |Models| + m) * |Runs| + r] == RunKey(Experiments[e], Models[m], Runs[r])
  {
    var i := (e * |Models| + m) * |Runs| + r;
    assert i == 12 * e + 3 * m + r;
    assert i / 12 == e && i / 3 == 4 * e + m && i % 3 == r;
  }

  /** The twelve runs, in order. */
  lemma RunKeysListed()
    ensures RunKeys() == [
      RunKey("30MinAv", "AllModels", "Av"), RunKey("30MinAv", "AllModels", "Max"), RunKey("30MinAv", "AllModels", "Min"),
      RunKey("30MinAv", "WindOnly", "Av"), RunKey("30MinAv", "WindOnly", "Max"), RunKey("30MinAv", "WindOnly", "Min"),
      RunKey("30MinAv", "EmpOnly", "Av"), RunKey("30MinAv", "EmpOnly", "Max"), RunKey("30MinAv", "EmpOnly", "Min"),
      RunKey("30MinAv", "MastinOnly", "Av"), RunKey("30MinAv", "MastinOnly", "Max"), RunKey("30MinAv", "MastinOnly", "Min")]
  {
    RunKeyAt(0, 0, 0); RunKeyAt(0, 0, 1); RunKeyAt(0, 0, 2);
    RunKeyAt(0, 1, 0); RunKeyAt(0, 1, 1); RunKeyAt(0, 1, 2);
    RunKeyAt(0, 2, 0); RunKeyAt(0, 2, 1); RunKeyAt(0, 2, 2);
    RunKeyAt(0, 3, 0); RunKeyAt(0, 3, 1); RunKeyAt(0, 3, 2);
  }

  /** data_dir / experiment / model / run. */
  function RunDir(dataDir: Path, k: RunKey): (p: Path)
    ensures Parent(Parent(Parent(p))) == dataDir
  {
    ParentOfChild(dataDir + [k.experiment, k.model], k.run);
    ParentOfGrandchild(dataDir, k.experiment, k.model);
    ParentOfChild(dataDir, k.experiment);
    assert dataDir + [k.experiment, k.model, k.run] == dataDir + [k.experiment, k.model] + [k.run];
    assert dataDir + [k.experiment, k.model] == dataDir + [k.experiment] + [k.model];
    dataDir + [k.experiment, k.model, k.run]
  }

  /** A name the pattern 'Fields_grid88*.txt' matches. */
  predicate IsFieldsFile(n: string) {
    |n| >= 17 && n[..13] == "Fields_grid88" && n[|n| - 4..] == ".txt"
  }

  /** A file that run_dir.glob('Fields_grid88*.txt') finds: it exists,
      lies directly in the directory, and its name matches. */
  predicate IsFieldsFileIn(store: Store, dir: Path, p: Path) {
    p in store && |p| == |dir| + 1 && p[..|dir|] == dir && IsFieldsFile(p[|dir|])
  }

  /** One row of the summary table: the run and what the two analyses found. */
  datatype Record = Record(key: RunKey, area: Peak, concentration: Peak)

  /** analyse_run as written: AshModelResult is the abstract base class of
      the adapters, and instantiating it raises TypeError whatever files the
      run holds. */
  function RunRecordAsWritten(k: RunKey, files: seq<Path>, store: Store, areaWeights: Cube -> Result<seq<real>>): Result<Record> {
    Err(TypeError)
  }

  /** analyse_run with the NAME adapter, which the REFIR files call for:
      the files are loaded as one list, the air concentration is taken once,
      and the two analyses run in turn, the first error escaping. */
  function RunRecord(k: RunKey, files: seq<Path>, store: Store, areaWeights: Cube -> Result<seq<real>>): (r: Result<Record>)
    ensures NameResults.LoadCubes(PathList(files), store).Err? ==> r == Err(NameResults.LoadCubes(PathList(files), store).error)
    ensures r.Ok? ==> r.value.key == k && r.value.area.value > 0.0
  {
    match NameResults.LoadCubes(PathList(files), store)
    case Err(e) => Err(e)
    case Ok(cubes) =>
      var air := NameResults.Field(cubes, AirConcentration);
      match AdvisoryAreaOf(air, areaWeights, Threshold)
      case Err(e) => Err(e)
      case Ok(area) =>
        match MaxConcentrationOf(air)
        case Err(e) => Err(e)
        case Ok(peak) =>
          assert area.value > 0.0 by {
            var slices := Slices(air.cube);
            var areas := areaWeights(air.cube).value;
            BestFails(slices, areas, Threshold, |slices|);
            BestIsFirstLargest(slices, areas, Threshold, |slices|);
          }
          Ok(Record(k, area, peak))
  }

  /** analyse_run: the adapter is opened on the list of files, and each
      analysis reads the air_concentration property. */
  method AnalyseRun(k: RunKey, files: seq<Path>, store: Store, areaWeights: Cube -> Result<seq<real>>) returns (r: Result<Record>)
    ensures r == RunRecord(k, files, store, areaWeights)
  {
    var result := NameResults.NameAshModelResult.Open(PathList(files), store);
    if result.Err? {
      return Err(result.error);
    }
    var model := result.value;
    var air := model.Fetch(AirConcentration);
    var area := AdvisoryArea(air, areaWeights, Threshold);
    if area.Err? {
      return Err(area.error);
    }
    air := model.Fetch(AirConcentration);
    var peak := MaxConcentrationData(air);
    if peak.Err? {
      return Err(peak.error);
    }
    return Ok(Record(k, area.value, peak.value));
  }

  /** What the runs are read from: the data directory, the entries of each
      directory in the order the file system lists them, the files
      themselves, and the cell areas of a horizontal grid. */
  datatype Inputs = Inputs(dataDir: Path, listing: Path -> seq<Path>, store: Store, areaWeights: Cube -> Result<seq<real>>)

  /** The files of a run: the entries of its directory that the pattern
      matches, in the order they are listed. */
  function RunFiles(inputs: Inputs, k: RunKey): (files: seq<Path>)
    ensures forall f :: f in files <==>
      f in inputs.listing(RunDir(inputs.dataDir, k)) && IsFieldsFileIn(inputs.store, RunDir(inputs.dataDir, k), f)
  {
    var dir := RunDir(inputs.dataDir, k);
    Filter(inputs.listing(dir), Matches(inputs.store, dir))
  }

  /** The test glob applies to each entry. */
  function Matches(store: Store, dir: Path): Path -> bool {
    f => IsFieldsFileIn(store, dir, f)
  }

  /** analyse_run(data_dir, experiment, model, run), corrected. */
  function RunOf(inputs: Inputs, k: RunKey): Result<Record> {
    RunRecord(k, RunFiles(inputs, k), inputs.store, inputs.areaWeights)
  }

  /** What analyse_run returns or raises for each run, in the order of the loops. */
  function Results(inputs: Inputs): (rs: seq<Result<Record>>)
    ensures |rs| == |RunKeys()|
  {
    seq(|RunKeys()|, i requires 0 <= i < |RunKeys()| => RunOf(inputs, RunKeys()[i]))
  }

  /** The same, as written. */
  function ResultsAsWritten(inputs: Inputs): (rs: seq<Result<Record>>)
    ensures |rs| == |RunKeys()|
  {
    seq(|RunKeys()|, i requires 0 <= i < |RunKeys()| =>
      RunRecordAsWritten(RunKeys()[i], RunFiles(inputs, RunKeys()[i]), inputs.store, inputs.areaWeights))
  }

  /** The rows appended by main, one per run in turn; the first exception
      escapes and ends the loops. */
  function Collect(results: seq<Result<Record>>): Result<seq<Record>> {
    if results == [] then Ok([])
    else
      match Collect(results[..|results| - 1])
      case Err(e) => Err(e)
      case Ok(rows) =>
        match results[|results| - 1]
        case Err(e) => Err(e)
        case Ok(row) => Ok(rows + [row])
  }

  /** The table holds one row per run, what the analysis of that run
      returned; an error is that of the first run that fails. */
  lemma {:induction false} CollectRows(results: seq<Result<Record>>)
    ensures var r := Collect(results);
      && (r.Ok? ==> |r.value| == |results| && forall i :: 0 <= i < |results| ==> results[i] == Ok(r.value[i]))
      && (r.Err? ==> exists i :: 0 <= i < |results| && results[i] == Err(r.error)
                        && forall j :: 0 <= j < i ==> results[j].Ok?)
  {
    if results != [] {
      var prior := results[..|results| - 1];
      CollectRows(prior);
      assert forall i :: 0 <= i < |prior| ==> prior[i] == results[i];
    }
  }

  /** The table is produced exactly when every run can be analysed. */
  lemma CollectOkIff(results: seq<Result<Record>>)
    ensures Collect(results).Ok? <==> forall i :: 0 <= i < |results| ==> results[i].Ok?
  {
    CollectRows(results);
    if Collect(results).Err? {
      var i :| 0 <= i < |results| && results[i] == Err(Collect(results).error);
    }
  }

  /** The table after one more run. */
  lemma CollectNext(results: seq<Result<Record>>, i: nat, rows: seq<Record>)
    requires i < |results| && Collect(results[..i]) == Ok(rows)
    ensures Collect(results[..i + 1]) == match results[i]
      case Err(e) => Err(e)
      case Ok(row) => Ok(rows + [row])
  {
    assert results[..i + 1][..i] == results[..i] && results[..i + 1][i] == results[i];
  }

  /** Once a run has failed, the later runs change nothing. */
  lemma {:induction false} CollectFailureStays(results: seq<Result<Record>>, n: nat)
    requires n <= |results|
    requires Collect(results[..n]).Err?
    ensures Collect(results) == Collect(results[..n])
    decreases |results| - n
  {
    if n < |results| {
      assert results[..|results| - 1][..n] == results[..n];
      CollectFailureStays(results[..|results| - 1], n);
    } else {
      assert results[..n] == results;
    }
  }

  /** A failure within a prefix is the failure of any longer prefix. */
  lemma CollectPrefixFails(results: seq<Result<Record>>, n: nat, p: nat)
    requires n <= p <= |results|
    requires Collect(results[..n]).Err?
    ensures Collect(results[..p]) == Collect(results[..n])
  {
    assert results[..p][..n] == results[..n];
    CollectFailureStays(results[..p], n);
  }

  /** What main tabulates: every run analysed with the NAME adapter. */
  function Analysed(inputs: Inputs): Result<seq<Record>> {
    Collect(Results(inputs))
  }

  /** What main tabulates as written. */
  function AnalysedAsWritten(inputs: Inputs): Result<seq<Record>> {
    Collect(ResultsAsWritten(inputs))
  }

  /** As written, the analysis never produces a table, whatever the data:
      the first run raises TypeError. */
  lemma AsWrittenNeverTabulates(inputs: Inputs)
    ensures AnalysedAsWritten(inputs) == Err(TypeError)
  {
    var results := ResultsAsWritten(inputs);
    assert |results| == 12;
    assert results[0] == RunRecordAsWritten(RunKeys()[0], RunFiles(inputs, RunKeys()[0]), inputs.store, inputs.areaWeights);
    assert results[..1][..0] == [] && results[..1][0] == results[0];
    assert Collect(results[..1]) == Err(TypeError);
    CollectFailureStays(results, 1);
  }

  /** When each result is that of its run, the table is produced exactly
      when every run can be analysed. */
  lemma CollectOkIffRuns(results: seq<Result<Record>>, keys: seq<RunKey>, run: RunKey -> Result<Record>)
    requires |results| == |keys|
    requires forall i :: 0 <= i < |keys| ==> results[i] == run(keys[i])
    ensures Collect(results).Ok? <==> forall k :: k in keys ==> run(k).Ok?
  {
    CollectOkIff(results);
    if !Collect(results).Ok? {
      var i :| 0 <= i < |results| && results[i].Err?;
      assert keys[i] in keys;
    }
  }

  /** With the NAME adapter, a table is produced exactly when every run
      can be analysed. */
  lemma CorrectedTabulatesIff(inputs: Inputs)
    ensures Analysed(inputs).Ok? <==> forall k :: k in RunKeys() ==> RunOf(inputs, k).Ok?
  {
    CollectOkIffRuns(Results(inputs), RunKeys(), k => RunOf(inputs, k));
  }

  /** The table has a row for each of the twelve runs, in the order of the
      loops, each with a positive advisory area. */
  lemma CorrectedTabulatesEveryRun(inputs: Inputs)
    ensures var r := Analysed(inputs);
      r.Ok? ==> |r.value| == 12 && forall i :: 0 <= i < 12 ==> r.value[i].key == RunKeys()[i] && r.value[i].area.value > 0.0
  {
    var results := Results(inputs);
    var keys := RunKeys();
    assert |keys| == 12;
    CollectRows(results);
    if Collect(results).Ok? {
      forall i | 0 <= i < 12
        ensures Collect(results).value[i].key == keys[i] && Collect(results).value[i].area.value > 0.0
      {
        assert results[i] == RunOf(inputs, keys[i]);
      }
    }
  }

  /** Ghost results are those of the runs: the link is only made where a
      run is analysed. */
  predicate Tabulates(results: seq<Result<Record>>, inputs: Inputs) {
    && |results| == |RunKeys()|
    && forall i {:trigger RunOf(inputs, RunKeys()[i])} :: 0 <= i < |results| ==> results[i] == RunOf(inputs, RunKeys()[i])
  }

  lemma ResultsTabulate(inputs: Inputs)
    ensures Tabulates(Results(inputs), inputs)
  {
  }

  /** The summary in the order of the nested loops of main: each run is
      analysed as it is reached, and an error ends the loops. */
  method AnalyseRuns(inputs: Inputs) returns (r: Result<seq<Record>>)
    ensures r == Analysed(inputs)
  {
    ghost var results := Results(inputs);
    ResultsTabulate(inputs);
    r := AnalyseExperiments(inputs, results);
  }

  /** The loop over the experiments. */
  method AnalyseExperiments(inputs: Inputs, ghost results: seq<Result<Record>>) returns (r: Result<seq<Record>>)
    requires Tabulates(results, inputs)
    ensures r == Collect(results)
  {
    var records: seq<Record> := [];
    var e := 0;
    while e < |Experiments|
      invariant 0 <= e <= |Experiments|
      invariant Collect(results[..e * |Models| * |Runs|]) == Ok(records)
    {
      r := AnalyseExperiment(inputs, e, results, records);
      if r.Err? {
        CollectFailureStays(results, (e + 1) * |Models| * |Runs|);
        return r;
      }
      records := r.value;
      e := e + 1;
    }
    assert results[..|results|] == results;
    return Ok(records);
  }

  /** The loop over the models of one experiment. */
  method AnalyseExperiment(inputs: Inputs, e: nat, ghost results: seq<Result<Record>>, records: seq<Record>)
    returns (r: Result<seq<Record>>)
    requires e < |Experiments| && Tabulates(results, inputs)
    requires Collect(results[..e * |Models| * |Runs|]) == Ok(records)
    ensures Collect(results[..(e + 1) * |Models| * |Runs|]) == r
  {
    var rows := records;
    var m := 0;
    while m < |Models|
      invariant 0 <= m <= |Models|
      invariant Collect(results[..(e * |Models| + m) * |Runs|]) == Ok(rows)
    {
      r := AnalyseModel(inputs, e, m, results, rows);
      if r.Err? {
        CollectPrefixFails(results, (e * |Models| + m + 1) * |Runs|, (e + 1) * |Models| * |Runs|);
        return r;
      }
      rows := r.value;
      m := m + 1;
    }
    return Ok(rows);
  }

  /** The loop over the runs of one model. */
  method AnalyseModel(inputs: Inputs, e: nat, m: nat, ghost results: seq<Result<Record>>, records: seq<Record>)
    returns (r: Result<seq<Record>>)
    requires e < |Experiments| && m < |Models| && Tabulates(results, inputs)
    requires Collect(results[..(e * |Models| + m) * |Runs|]) == Ok(records)
    ensures Collect(results[..(e * |Models| + m + 1) * |Runs|]) == r
  {
    ghost var start := (e * |Models| + m) * |Runs|;
    var rows := records;
    var n := 0;
    while n < |Runs|
      invariant 0 <= n <= |Runs|
      invariant Collect(results[..start + n]) == Ok(rows)
    {
      var row := AnalyseRunAt(inputs, e, m, n, start + n, results, rows);
      if row.Err? {
        CollectPrefixFails(results, start + n + 1, start + |Runs|);
        return Err(row.error);
      }
      rows := rows + [row.value];
      n := n + 1;
    }
    return Ok(rows);
  }

  /** One turn of the innermost loop of main: the run at (e, m, n). */
  method AnalyseRunAt(inputs: Inputs, e: nat, m: nat, n: nat, ghost i: nat, ghost results: seq<Result<Record>>,
                      ghost records: seq<Record>)
    returns (row: Result<Record>)
    requires e < |Experiments| && m < |Models| && n < |Runs| && i == (e * |Models| + m) * |Runs| + n
    requires Tabulates(results, inputs) && Collect(results[..i]) == Ok(records)
    ensures Collect(results[..i + 1]) == if row.Err? then Err(row.error) else Ok(records + [row.value])
  {
    var k := RunKey(Experiments[e], Models[m], Runs[n]);
    row := AnalyseRunIn(inputs, k);
    RunKeyAt(e, m, n);
    assert row == RunOf(inputs, RunKeys()[i]);
    CollectNext(results, i, records);
  }

  /** analyse_run(data_dir, experiment, model, run): the files of the run,
      then their analysis. */
  method AnalyseRunIn(inputs: Inputs, k: RunKey) returns (row: Result<Record>)
    ensures row == RunOf(inputs, k)
  {
    var files := RunFiles(inputs, k);
    row := AnalyseRun(k, files, inputs.store, inputs.areaWeights);
  }

  // ---------------------------------------------------------------------
  // The bar charts
  // ---------------------------------------------------------------------

  /** One column of the summary table, with the row keys. */
  type Column = seq<(RunKey, real)>

  /** results_df['advisory_area'] / 1e9: square metres to thousands of square kilometres. */
  function AreaColumn(records: seq<Record>): (c: Column)
    ensures |c| == |records|
    ensures forall i :: 0 <= i < |records| ==> c[i].0 == records[i].key && c[i].1 * 1000000000.0 == records[i].area.value
  {
    seq(|records|, i requires 0 <= i < |records| => (records[i].key, records[i].area.value / 1000000000.0))
  }

  /** results_df['max_concentration'] * 1e3: grams to milligrams per cubic metre. */
  function ConcentrationColumn(records: seq<Record>): (c: Column)
    ensures |c| == |records|
    ensures forall i :: 0 <= i < |records| ==> c[i].0 == records[i].key && c[i].1 / 1000.0 == records[i].concentration.value
  {
    seq(|records|, i requires 0 <= i < |records| => (records[i].key, records[i].concentration.value * 1000.0))
  }

  /** The value of the first row with key k, None when no row has it. */
  function Lookup(column: Column, k: RunKey): (r: Option<real>)
    ensures r.None? <==> forall i :: 0 <= i < |column| ==> column[i].0 != k
  {
    if column == [] then None
    else if column[0].0 == k then Some(column[0].1)
    else
      var rest := Lookup(column[1..], k);
      assert forall i :: 1 <= i < |column| ==> column[i] == column[1..][i - 1];
      rest
  }

  /** The first row with key k is the one looked up. */
  lemma {:induction false} LookupAt(column: Column, k: RunKey, i: nat)
    requires i < |column| && column[i].0 == k
    requires forall j :: 0 <= j < i ==> column[j].0 != k
    ensures Lookup(column, k) == Some(column[i].1)
    decreases i
  {
    if i > 0 {
      LookupAt(column[1..], k, i - 1);
    }
  }

  /** The bar of an 'Av' row: heights - xs('Min') below and xs('Max') -
      heights above, aligned on experiment and model; a missing row is NaN
      in pandas and None here. */
  function BarAt(column: Column, k: RunKey, height: real): Bar {
    var low := Lookup(column, RunKey(k.experiment, k.model, "Min"));
    var high := Lookup(column, RunKey(k.experiment, k.model, "Max"));
    Bar(height, if low.Some? then Some(height - low.value) else None, if high.Some? then Some(high.value - height) else None)
  }

  /** plot_bar_with_errors: one bar per 'Av' row, in the order of the rows. */
  function ErrorBars(column: Column): seq<Bar> {
    BarsFrom(column, column)
  }

  function BarsFrom(rows: Column, column: Column): seq<Bar> {
    if rows == [] then []
    else (if rows[0].0.run == "Av" then [BarAt(column, rows[0].0, rows[0].1)] else []) + BarsFrom(rows[1..], column)
  }

  /** Rows Av, Max, Min from row i on give one bar. */
  lemma BarsFromTriple(column: Column, i: nat)
    requires i + 3 <= |column|
    requires column[i].0.run == "Av" && column[i + 1].0.run == "Max" && column[i + 2].0.run == "Min"
    ensures BarsFrom(column[i..], column) == [BarAt(column, column[i].0, column[i].1)] + BarsFrom(column[i + 3..], column)
  {
    var rows := column[i..];
    assert rows[0] == column[i] && rows[1] == column[i + 1] && rows[2] == column[i + 2];
    assert rows[1..][1..] == rows[2..] && rows[2..][1..] == rows[3..] && rows[3..] == column[i + 3..];
    assert BarsFrom(rows[2..], column) == BarsFrom(rows[3..], column);
  }

  /** The bar of the model whose rows Av, Max, Min start at row i, when no
      earlier row is of that model. */
  lemma BarOfModel(column: Column, i: nat)
    requires i + 2 < |column| && column[i].0.run == "Av"
    requires column[i + 1].0 == RunKey(column[i].0.experiment, column[i].0.model, "Max")
    requires column[i + 2].0 == RunKey(column[i].0.experiment, column[i].0.model, "Min")
    requires forall j :: 0 <= j < i ==> column[j].0.model != column[i].0.model
    ensures BarAt(column, column[i].0, column[i].1)
         == Bar(column[i].1, Some(column[i].1 - column[i + 2].1), Some(column[i + 1].1 - column[i].1))
  {
    LookupAt(column, column[i + 1].0, i + 1);
    LookupAt(column, column[i + 2].0, i + 2);
  }

  /** A column of the table main builds: one row per run, in the order of
      the loops. */
  predicate IsTableColumn(column: Column) {
    |column| == |RunKeys()| && forall i :: 0 <= i < |column| ==> column[i].0 == RunKeys()[i]
  }

  /** The rows of a table column, model by model. */
  lemma TableColumnKeys(column: Column)
    requires IsTableColumn(column)
    ensures |column| == 12
    ensures column[0].0 == RunKey("30MinAv", "AllModels", "Av") && column[1].0 == RunKey("30MinAv", "AllModels", "Max")
         && column[2].0 == RunKey("30MinAv", "AllModels", "Min")
    ensures column[3].0 == RunKey("30MinAv", "WindOnly", "Av") && column[4].0 == RunKey("30MinAv", "WindOnly", "Max")
         && column[5].0 == RunKey("30MinAv", "WindOnly", "Min")
    ensures column[6].0 == RunKey("30MinAv", "EmpOnly", "Av") && column[7].0 == RunKey("30MinAv", "EmpOnly", "Max")
         && column[8].0 == RunKey("30MinAv", "EmpOnly", "Min")
    ensures column[9].0 == RunKey("30MinAv", "MastinOnly", "Av") && column[10].0 == RunKey("30MinAv", "MastinOnly", "Max")
         && column[11].0 == RunKey("30MinAv", "MastinOnly", "Min")
  {
    var keys := RunKeys();
    RunKeysListed();
    assert column[0].0 == keys[0] && column[1].0 == keys[1] && column[2].0 == keys[2];
    assert column[3].0 == keys[3] && column[4].0 == keys[4] && column[5].0 == keys[5];
    assert column[6].0 == keys[6] && column[7].0 == keys[7] && column[8].0 == keys[8];
    assert column[9].0 == keys[9] && column[10].0 == keys[10] && column[11].0 == keys[11];
  }

  /** In a table column, the bars are those of the Av rows 0, 3, 6 and 9. */
  lemma ErrorBarsOfAvRows(column: Column)
    requires IsTableColumn(column)
    ensures |column| == 12
    ensures ErrorBars(column) == [BarAt(column, column[0].0, column[0].1), BarAt(column, column[3].0, column[3].1),
                                  BarAt(column, column[6].0, column[6].1), BarAt(column, column[9].0, column[9].1)]
  {
    TableColumnKeys(column);
    ErrorBarsOfFourTriples(column);
  }

  /** Twelve rows that run Av, Max, Min four times give the bars of rows
      0, 3, 6 and 9. */
  lemma ErrorBarsOfFourTriples(column: Column)
    requires |column| == 12
    requires column[0].0.run == "Av" && column[1].0.run == "Max" && column[2].0.run == "Min"
    requires column[3].0.run == "Av" && column[4].0.run == "Max" && column[5].0.run == "Min"
    requires column[6].0.run == "Av" && column[7].0.run == "Max" && column[8].0.run == "Min"
    requires column[9].0.run == "Av" && column[10].0.run == "Max" && column[11].0.run == "Min"
    ensures ErrorBars(column) == [BarAt(column, column[0].0, column[0].1), BarAt(column, column[3].0, column[3].1),
                                  BarAt(column, column[6].0, column[6].1), BarAt(column, column[9].0, column[9].1)]
  {
    BarsFromTriple(column, 0);
    BarsFromTriple(column, 3);
    BarsFromTriple(column, 6);
    BarsFromTriple(column, 9);
    assert column[0..] == column && column[12..] == [];
  }

  /** The bar of the model whose rows Av, Max, Min are rows i, i + 1 and
      i + 2: the Av value, with the error bar reaching down to the Min
      value and up to the Max value. */
  function ModelBar(column: Column, i: nat): Bar
    requires i + 2 < |column|
  {
    Bar(column[i].1, Some(column[i].1 - column[i + 2].1), Some(column[i + 1].1 - column[i].1))
  }

  /** For the table main builds, each model gets one bar, in the order of
      LABELS. */
  lemma ErrorBarsOfTable(column: Column)
    requires IsTableColumn(column)
    ensures |column| == 12
    ensures ErrorBars(column) == [ModelBar(column, 0), ModelBar(column, 3), ModelBar(column, 6), ModelBar(column, 9)]
  {
    ErrorBarsOfAvRows(column);
    BarOfTableModel(column, 0);
    BarOfTableModel(column, 3);
    BarOfTableModel(column, 6);
    BarOfTableModel(column, 9);
  }

  /** The bar of the model whose rows start at row i of a table column. */
  lemma BarOfTableModel(column: Column, i: nat)
    requires IsTableColumn(column) && i in [0, 3, 6, 9]
    ensures i + 2 < |column|
    ensures BarAt(column, column[i].0, column[i].1) == ModelBar(column, i)
  {
    TableColumnKeys(column);
    forall j | 0 <= j < i
      ensures column[j].0.model != column[i].0.model
    {
      assert |column[j].0.model| != |column[i].0.model|;
    }
    BarOfModel(column, i);
  }

  /** The columns of a table with one row per run, in the order of the
      loops, are table columns. */
  lemma TableColumnsOf(records: seq<Record>)
    requires |records| == |RunKeys()|
    requires forall i :: 0 <= i < |records| ==> records[i].key == RunKeys()[i]
    ensures IsTableColumn(AreaColumn(records)) && IsTableColumn(ConcentrationColumn(records))
  {
  }

  /** The charts main draws from the table it builds: one bar per model, in
      the order of LABELS, each the Av run's value with its error bar
      reaching down to the Min run and up to the Max run. */
  lemma ChartsOfAnalysis(inputs: Inputs)
    requires Analysed(inputs).Ok?
    ensures var area := AreaColumn(Analysed(inputs).value);
      |area| == 12 && ErrorBars(area) == [ModelBar(area, 0), ModelBar(area, 3), ModelBar(area, 6), ModelBar(area, 9)]
    ensures var concentration := ConcentrationColumn(Analysed(inputs).value);
      && |concentration| == 12
      && ErrorBars(concentration)
         == [ModelBar(concentration, 0), ModelBar(concentration, 3), ModelBar(concentration, 6), ModelBar(concentration, 9)]
  {
    var records := Analysed(inputs).value;
    CorrectedTabulatesEveryRun(inputs);
    TableColumnsOf(records);
    ErrorBarsOfTable(AreaColumn(records));
    ErrorBarsOfTable(ConcentrationColumn(records));
  }

  // ---------------------------------------------------------------------
  // main
  // ---------------------------------------------------------------------

  /** The output directory: the one given, or the data directory. */
  function OutputDirOf(dataDir: Path, outputDir: Option<Path>): Path {
    if outputDir.Some? then outputDir.value else dataDir
  }

  /** What main writes into the output directory, in order: the CSV table
      and the two bar charts, labelled by LABELS. */
  function Written(out: Path, records: seq<Record>): seq<Output> {
    [TextFile(out + ["REFIR_summary.csv"]),
     BarChart(out + ["REFIR_advisory_area.png"], Labels, ErrorBars(AreaColumn(records))),
     BarChart(out + ["REFIR_max_concentration.png"], Labels, ErrorBars(ConcentrationColumn(records)))]
  }

  /** main(data_dir, output_dir): the output directory is created with its
      parents when it is missing, the runs are analysed, and the table and
      charts are saved; an error escapes with what was written before it. */
  method Analyse(inputs: Inputs, outputDir: Option<Path>, fs: FileSystem) returns (err: Option<Error>)
    modifies fs
    ensures outputDir.Some? ==> fs.IsDir(outputDir.value)
    ensures fs.dirs == if outputDir.Some? && !old(fs.IsDir(outputDir.value))
                       then old(fs.dirs) + (set k | 1 <= k <= |outputDir.value| :: outputDir.value[..k])
                       else old(fs.dirs)
    ensures var out := OutputDirOf(inputs.dataDir, outputDir);
      match Analysed(inputs)
      case Err(e) => err == Some(e) && fs.outputs == old(fs.outputs)
      case Ok(records) =>
        if fs.IsDir(out) then err.None? && fs.outputs == old(fs.outputs) + Written(out, records)
        else err == Some(FileNotFound(out + ["REFIR_summary.csv"])) && fs.outputs == old(fs.outputs)
  {
    var out := inputs.dataDir;
    if outputDir.Some? {
      out := outputDir.value;
      if !fs.IsDir(out) {
        var made := fs.MakeDirs(out);
        assert out[..|out|] == out;
      }
    }
    var table := AnalyseRuns(inputs);
    if table.Err? {
      return Some(table.error);
    }
    err := WriteResults(out, table.value, fs);
  }

  /** df.to_csv, then plot_results: three files in the output directory. */
  method WriteResults(out: Path, records: seq<Record>, fs: FileSystem) returns (err: Option<Error>)
    modifies fs
    ensures fs.dirs == old(fs.dirs)
    ensures fs.IsDir(out) ==> err.None? && fs.outputs == old(fs.outputs) + Written(out, records)
    ensures !fs.IsDir(out) ==> err == Some(FileNotFound(out + ["REFIR_summary.csv"])) && fs.outputs == old(fs.outputs)
  {
    var written := Written(out, records);
    ParentOfChild(out, "REFIR_summary.csv");
    ParentOfChild(out, "REFIR_advisory_area.png");
    ParentOfChild(out, "REFIR_max_concentration.png");
    err := fs.Write(written[0]);
    if err.Some? {
      return;
    }
    err := fs.Write(written[1]);
    err := fs.Write(written[2]);
    assert fs.outputs == old(fs.outputs) + [written[0]] + [written[1]] + [written[2]];
  }
}
