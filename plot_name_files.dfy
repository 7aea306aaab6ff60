/** plot_name_files: every NAME file of a directory whose name starts with a
    prefix is drawn level by level, one map per level, into
    <output>/plots/<level>/. The packaged copy draws every map on the scale
    from 0 to the maximum of the file; the script copy lets the renderer
    choose (the `scaled` flag). */
module PlotNameFiles {
  import opened Common
  import opened Cubes
  import opened Text
  import opened Workspace
  import opened Plotting

  /** Values below 1e-8 are masked before drawing. */
  const Threshold: real := 0.00000001

  /** numpy.ma.masked_less(data, 1e-8), for the map of one level. */
  function MaskLevel(g: Grid2): seq<seq<Option<real>>> {
    seq(|g|, y requires 0 <= y < |g| =>
      seq(|g[y]|, x requires 0 <= x < |g[y]| => if g[y][x] < Threshold then None else Some(g[y][x])))
  }

  /** The mask keeps the shape, hides exactly the values below the
      threshold and leaves the others as they are. */
  lemma MaskLevelSpec(g: Grid2)
    ensures var m := MaskLevel(g);
      && |m| == |g| && (forall y :: 0 <= y < |g| ==> |m[y]| == |g[y]|)
      && forall y, x :: 0 <= y < |g| && 0 <= x < |g[y]| ==>
           (m[y][x].None? <==> g[y][x] < Threshold) && (m[y][x].Some? ==> m[y][x].value == g[y][x])
  {
  }

  /** The maximum of the masked data; None (numpy's masked constant) when
      every value is masked. */
  function MaskedMax(d: Data): Option<real> {
    var kept := Filter(Cells(d), x => x >= Threshold);
    if kept == [] then None else Some(MaxOf(kept))
  }

  /** The masked maximum is a value of the data at or above the threshold,
      no smaller than any other such value; there is none exactly when
      every value is masked. */
  lemma MaskedMaxSpec(d: Data)
    ensures var r := MaskedMax(d);
      && (r.None? <==> forall x :: x in Cells(d) ==> x < Threshold)
      && (r.Some? ==> r.value in Cells(d) && r.value >= Threshold)
      && (r.Some? ==> forall x :: x in Cells(d) && x >= Threshold ==> x <= r.value)
  {
  }

  /** The scale of every map of a file: from 0 to the masked maximum of the
      whole cube when `scaled`; none otherwise. The maximum of an array
      with no cell fails. */
  function LevelScale(d: Data, scaled: bool): Result<Option<Scale>> {
    if !scaled then Ok(None)
    else if Cells(d) == [] then Err(EmptyArray)
    else Ok(Some(Scale(0.0, MaskedMax(d))))
  }

  /** The file name plot_level gives the map of `level`: title, quantity,
      level and timestamp joined by '_', then '.png'. The time coordinate is
      looked up first, then the attributes, then its first point. */
  function LevelTitle(c: Cube, level: int): Result<string> {
    if c.time.NoTime? then Err(CoordinateNotFound("time"))
    else if "Title" !in c.attributes || "Quantity" !in c.attributes then Err(NoneAttribute("replace"))
    else
      match FirstTime(c.time)
      case Err(e) => Err(e)
      case Ok(t) =>
        var fields := [ReplaceSpaces(c.attributes["Title"]), ReplaceSpaces(c.attributes["Quantity"]),
                       Format05d(level), Strftime(t) + ".png"];
        Ok(JoinStrings(fields, "_"))
  }

  /** The file name spelled out: the prefix of draw_2d_cube, the level,
      '_', the timestamp and '.png'. */
  lemma LevelTitleForm(c: Cube, level: int)
    requires LevelTitle(c, level).Ok?
    ensures LevelTitle(c, level).value
            == TitlePrefix(c.attributes) + Format05d(level) + "_" + Strftime(FirstTime(c.time).value) + ".png"
  {
    var t := FirstTime(c.time).value;
    var a, b, d := ReplaceSpaces(c.attributes["Title"]), ReplaceSpaces(c.attributes["Quantity"]), Format05d(level);
    JoinFour(a, b, d, Strftime(t) + ".png", "_");
    AppendAssociates(a + "_" + b + "_" + d + "_", Strftime(t), ".png");
  }

  /** The file name fails for a missing time coordinate, then for a missing
      attribute, then for a time axis with no point, and only then. */
  lemma LevelTitleFailures(c: Cube, level: int)
    ensures c.time.NoTime? ==> LevelTitle(c, level) == Err(CoordinateNotFound("time"))
    ensures !c.time.NoTime? && ("Title" !in c.attributes || "Quantity" !in c.attributes) ==>
              LevelTitle(c, level) == Err(NoneAttribute("replace"))
    ensures c.time == TimeAxis([]) && "Title" in c.attributes && "Quantity" in c.attributes ==>
              LevelTitle(c, level) == Err(IndexError)
    ensures LevelTitle(c, level).Ok? <==>
              FirstTime(c.time).Ok? && "Title" in c.attributes && "Quantity" in c.attributes
  {
  }

  /** The file name holds no space. */
  lemma LevelTitleNoSpace(c: Cube, level: int)
    requires LevelTitle(c, level).Ok?
    ensures ' ' !in LevelTitle(c, level).value
  {
    var t := FirstTime(c.time).value;
    var prefix := TitlePrefix(c.attributes);
    var digits := Format05d(level);
    var stamp := Strftime(t);
    LevelTitleForm(c, level);
    assert ' ' !in prefix;
    assert ' ' !in digits by {
      if level < 0 {
        assert digits == ['-'] + ZeroPad(-level, 4);
      }
    }
    assert ' ' !in stamp by {
      FormatFieldsDigits(TimestampFields(t), TimestampWidths);
    }
  }

  /** The file name ends in '.png', just after the timestamp, which reads
      back as the time of the map. */
  lemma LevelTitleTime(c: Cube, level: int)
    requires LevelTitle(c, level).Ok? && FirstTime(c.time).value.Valid()
    ensures var title := LevelTitle(c, level).value;
      && |title| >= 18 && title[|title| - 4..] == ".png"
      && ParseTimestamp(title[|title| - 18..|title| - 4]) == Some(FirstTime(c.time).value)
  {
    var t := FirstTime(c.time).value;
    var front := TitlePrefix(c.attributes) + Format05d(level) + "_";
    var stamp := Strftime(t);
    var title := front + stamp + ".png";
    LevelTitleForm(c, level);
    assert LevelTitle(c, level).value == title;
    StrftimeLength(t);
    ParseStrftime(t);
    assert title[|title| - 18..|title| - 4] == stamp;
    assert title[|title| - 4..] == ".png";
  }

  /** The map of level i, cube[i, :, :] with its masked values, saved as
      plots/<level>/<title>. Indexing comes first, so a level past axis 0
      raises IndexError even on four-axis data, which pcolormesh refuses. */
  function DrawLevel(c: Cube, i: nat, level: int, plotDir: Path, scaled: bool): Result<Output> {
    match c.data
    case Data4(g) => if i >= |g| then Err(IndexError) else Err(NotAMap)
    case Data3(g) =>
      if i >= |g| then Err(IndexError)
      else
        match LevelScale(c.data, scaled)
        case Err(e) => Err(e)
        case Ok(scale) =>
          match LevelTitle(c, level)
          case Err(e) => Err(e)
          case Ok(title) => Ok(LevelImage(plotDir + [Format05d(level), title], MaskLevel(g[i]), scale))
  }

  /** The outcome of the map of every level from `from` on, in order. */
  function LevelMapsFrom(c: Cube, levels: seq<int>, plotDir: Path, scaled: bool, from: nat): (r: seq<Result<Output>>)
    requires from <= |levels|
    ensures |r| == |levels| - from
    decreases |levels| - from
  {
    if from == |levels| then []
    else [DrawLevel(c, from, levels[from], plotDir, scaled)] + LevelMapsFrom(c, levels, plotDir, scaled, from + 1)
  }

  /** The outcome of the map of every level, in order. */
  function LevelMaps(c: Cube, levels: seq<int>, plotDir: Path, scaled: bool): (r: seq<Result<Output>>)
    ensures |r| == |levels|
  {
    LevelMapsFrom(c, levels, plotDir, scaled, 0)
  }

  /** The k-th outcome is the map of the k-th level. */
  lemma LevelMapsAt(c: Cube, levels: seq<int>, plotDir: Path, scaled: bool, k: nat)
    requires k < |levels|
    ensures LevelMaps(c, levels, plotDir, scaled)[k] == DrawLevel(c, k, levels[k], plotDir, scaled)
  {
    LevelMapAt(c, levels, plotDir, scaled, 0, k);
  }

  lemma {:induction false} LevelMapAt(c: Cube, levels: seq<int>, plotDir: Path, scaled: bool, from: nat, k: nat)
    requires from <= k < |levels|
    ensures LevelMapsFrom(c, levels, plotDir, scaled, from)[k - from] == DrawLevel(c, k, levels[k], plotDir, scaled)
    decreases k - from
  {
    if from < k {
      LevelMapAt(c, levels, plotDir, scaled, from + 1, k);
    }
  }

  /** The first map from `from` on that fails; |maps| when none does. */
  function FirstFailure(maps: seq<Result<Output>>, from: nat): (r: nat)
    requires from <= |maps|
    ensures from <= r <= |maps|
    ensures forall k :: from <= k < r ==> maps[k].Ok?
    ensures r < |maps| ==> maps[r].Err?
    decreases |maps| - from
  {
    if from == |maps| then from
    else if maps[from].Err? then from
    else FirstFailure(maps, from + 1)
  }

  /** The first n maps, none of which fails. */
  function Images(maps: seq<Result<Output>>, n: nat): seq<Output>
    requires n <= |maps|
    requires forall k :: 0 <= k < n ==> maps[k].Ok?
  {
    seq(n, k requires 0 <= k < n => maps[k].value)
  }

  /** The directory name of every level. */
  function LevelNames(levels: seq<int>): (r: seq<string>)
    ensures |r| == |levels|
  {
    seq(|levels|, k requires 0 <= k < |levels| => Format05d(levels[k]))
  }

  /** The directories of the first n levels, given their names. */
  function LevelDirs(plotDir: Path, names: seq<string>, n: nat): set<Path>
    requires n <= |names|
  {
    set k | 0 <= k < n :: plotDir + [names[k]]
  }

  /** Every level directory sits directly in plots/. */
  lemma LevelDirsInside(plotDir: Path, names: seq<string>, n: nat)
    requires n <= |names|
    ensures forall p :: p in LevelDirs(plotDir, names, n) ==> Parent(p) == plotDir
  {
    forall p | p in LevelDirs(plotDir, names, n)
      ensures Parent(p) == plotDir
    {
      var k :| 0 <= k < n && p == plotDir + [names[k]];
      ParentOfChild(plotDir, names[k]);
    }
  }

  /** One more level adds its directory. */
  lemma LevelDirsStep(plotDir: Path, names: seq<string>, n: nat)
    requires n < |names|
    ensures LevelDirs(plotDir, names, n + 1) == LevelDirs(plotDir, names, n) + {plotDir + [names[n]]}
  {
    var step := plotDir + [names[n]];
    forall p | p in LevelDirs(plotDir, names, n + 1)
      ensures p in LevelDirs(plotDir, names, n) || p == step
    {
      var k :| 0 <= k < n + 1 && p == plotDir + [names[k]];
      if k < n {
        assert p in LevelDirs(plotDir, names, n);
      }
    }
    assert step in LevelDirs(plotDir, names, n + 1);
  }

  /** The map of the k-th level is saved in the directory of its level,
      under the file name of its level. */
  lemma ImagePath(c: Cube, levels: seq<int>, plotDir: Path, scaled: bool, k: nat)
    requires k < |levels| && LevelMaps(c, levels, plotDir, scaled)[k].Ok?
    ensures var image := LevelMaps(c, levels, plotDir, scaled)[k].value;
      && image.LevelImage? && LevelTitle(c, levels[k]).Ok?
      && |image.path| == |plotDir| + 2 && image.path[..|plotDir|] == plotDir
      && image.path[|plotDir|] == Format05d(levels[k])
      && image.path[|plotDir| + 1] == LevelTitle(c, levels[k]).value
  {
    LevelMapsAt(c, levels, plotDir, scaled, k);
    var path := plotDir + [Format05d(levels[k]), LevelTitle(c, levels[k]).value];
    assert path[..|plotDir|] == plotDir;
  }

  /** When no map fails there is exactly one image per level, and distinct
      levels never write to the same file. */
  lemma OneImagePerLevel(c: Cube, levels: seq<int>, plotDir: Path, scaled: bool)
    requires FirstFailure(LevelMaps(c, levels, plotDir, scaled), 0) == |levels|
    ensures |Images(LevelMaps(c, levels, plotDir, scaled), |levels|)| == |levels|
    ensures var images := Images(LevelMaps(c, levels, plotDir, scaled), |levels|);
      forall j, k :: 0 <= j < k < |levels| && levels[j] != levels[k] ==>
        images[j].LevelImage? && images[k].LevelImage? && images[j].path != images[k].path
  {
    var maps := LevelMaps(c, levels, plotDir, scaled);
    var images := Images(maps, |levels|);
    forall j, k | 0 <= j < k < |levels| && levels[j] != levels[k]
      ensures images[j].LevelImage? && images[k].LevelImage? && images[j].path != images[k].path
    {
      ImagesApart(c, levels, plotDir, scaled, j, k);
    }
  }

  /** The maps of two different levels are saved under different paths. */
  lemma ImagesApart(c: Cube, levels: seq<int>, plotDir: Path, scaled: bool, j: nat, k: nat)
    requires j < |levels| && k < |levels| && levels[j] != levels[k]
    requires LevelMaps(c, levels, plotDir, scaled)[j].Ok? && LevelMaps(c, levels, plotDir, scaled)[k].Ok?
    ensures var a, b := LevelMaps(c, levels, plotDir, scaled)[j].value, LevelMaps(c, levels, plotDir, scaled)[k].value;
      a.LevelImage? && b.LevelImage? && a.path != b.path
  {
    ImagePath(c, levels, plotDir, scaled, j);
    ImagePath(c, levels, plotDir, scaled, k);
    Format05dInjective(levels[j], levels[k]);
  }

  /** One more map that does not fail is added at the end. */
  lemma ImagesStep(maps: seq<Result<Output>>, n: nat)
    requires n < |maps|
    requires forall k :: 0 <= k <= n ==> maps[k].Ok?
    ensures Images(maps, n + 1) == Images(maps, n) + [maps[n].value]
  {
  }

  /** Starting the search further on finds the same failure when the maps
      skipped do not fail. */
  lemma {:induction false} FirstFailureSkips(maps: seq<Result<Output>>, from: nat, to: nat)
    requires from <= to <= |maps|
    requires forall k :: from <= k < to ==> maps[k].Ok?
    ensures FirstFailure(maps, from) == FirstFailure(maps, to)
    decreases |maps| - from
  {
    if from < to {
      FirstFailureSkips(maps, from + 1, to);
    }
  }

  /** The loop of plot_levels, as a recursion over the maps from `from`
      on: their images until one fails, and its error. */
  function LevelsRun(maps: seq<Result<Output>>, from: nat): (Option<Error>, seq<Output>)
    requires from <= |maps|
    decreases |maps| - from
  {
    if from == |maps| then (None, [])
    else
      match maps[from]
      case Err(e) => (Some(e), [])
      case Ok(image) =>
        var rest := LevelsRun(maps, from + 1);
        (rest.0, [image] + rest.1)
  }

  /** The run raises the error of the first map that fails, and saves the
      images of the maps before it. */
  lemma {:induction false} LevelsRunStops(maps: seq<Result<Output>>, from: nat)
    requires from <= |maps|
    ensures var stop := FirstFailure(maps, from);
      && LevelsRun(maps, from).0 == (if stop < |maps| then Some(maps[stop].error) else None)
      && |LevelsRun(maps, from).1| == stop - from
      && forall k :: from <= k < stop ==> LevelsRun(maps, from).1[k - from] == maps[k].value
    decreases |maps| - from
  {
    if from < |maps| && maps[from].Ok? {
      LevelsRunStops(maps, from + 1);
    }
  }

  /** The run from the first map saves exactly the images up to the first
      failure. */
  lemma LevelsRunImages(maps: seq<Result<Output>>)
    ensures var stop := FirstFailure(maps, 0);
      LevelsRun(maps, 0) == (if stop < |maps| then Some(maps[stop].error) else None, Images(maps, stop))
  {
    LevelsRunStops(maps, 0);
    var stop := FirstFailure(maps, 0);
    var run := LevelsRun(maps, 0).1;
    assert |run| == |Images(maps, stop)|;
    forall k | 0 <= k < stop
      ensures run[k] == Images(maps, stop)[k]
    {
      assert run[k - 0] == maps[k].value;
    }
    assert run == Images(maps, stop);
  }

  /** The first half of a pass of the loop of plot_levels: the level's
      directory is made when missing. */
  method MakeLevelDir(levels: seq<int>, i: nat, plotDir: Path, fs: FileSystem,
                      ghost names: seq<string>, ghost dirs: set<Path>)
    requires i < |levels| && fs.IsDir(plotDir)
    requires names == LevelNames(levels)
    requires fs.dirs == dirs + LevelDirs(plotDir, names, i)
    modifies fs
    ensures fs.IsDir(plotDir) && fs.IsDir(plotDir + [Format05d(levels[i])])
    ensures fs.dirs == dirs + LevelDirs(plotDir, names, i + 1)
    ensures fs.outputs == old(fs.outputs)
  {
    var levelDir := plotDir + [Format05d(levels[i])];
    if !fs.IsDir(levelDir) {
      ParentOfChild(plotDir, Format05d(levels[i]));
      var _ := fs.MakeDir(levelDir);
    }
    assert names[i] == Format05d(levels[i]);
    LevelDirsStep(plotDir, names, i);
  }

  /** The second half: the map of level i is drawn and saved in the level's
      directory, after the images of the levels before it. */
  method SaveMap(c: Cube, levels: seq<int>, i: nat, plotDir: Path, scaled: bool, fs: FileSystem,
                 ghost maps: seq<Result<Output>>, ghost outputs: seq<Output>)
    returns (err: Option<Error>)
    requires i < |levels| && fs.IsDir(plotDir + [Format05d(levels[i])])
    requires maps == LevelMaps(c, levels, plotDir, scaled)
    requires forall k :: 0 <= k < i ==> maps[k].Ok?
    requires fs.outputs == outputs + Images(maps, i)
    modifies fs
    ensures fs.dirs == old(fs.dirs)
    ensures err.None? <==> maps[i].Ok?
    ensures err.Some? ==> err.value == maps[i].error && fs.outputs == old(fs.outputs)
    ensures err.Some? ==> FirstFailure(maps, 0) == i
    ensures err.None? ==> (forall k :: 0 <= k <= i ==> maps[k].Ok?) && fs.outputs == outputs + Images(maps, i + 1)
  {
    var image := DrawLevel(c, i, levels[i], plotDir, scaled);
    LevelMapsAt(c, levels, plotDir, scaled, i);
    if image.Err? {
      FirstFailureSkips(maps, 0, i);
      return Some(image.error);
    }
    ParentOfGrandchild(plotDir, Format05d(levels[i]), LevelTitle(c, levels[i]).value);
    err := fs.Write(image.value);
    ImagesStep(maps, i);
    AppendAssociates(outputs, Images(maps, i), [image.value]);
  }

  /** The loop of plot_levels over the levels of the altitude coordinate,
      until a map fails. */
  method DrawLevels(c: Cube, levels: seq<int>, plotDir: Path, scaled: bool, fs: FileSystem)
    returns (err: Option<Error>)
    requires fs.IsDir(plotDir)
    modifies fs
    ensures var maps := LevelMaps(c, levels, plotDir, scaled);
      var stop := FirstFailure(maps, 0);
      && err == (if stop < |maps| then Some(maps[stop].error) else None)
      && fs.outputs == old(fs.outputs) + Images(maps, stop)
      && fs.dirs == old(fs.dirs) + LevelDirs(plotDir, LevelNames(levels), if stop < |maps| then stop + 1 else stop)
  {
    ghost var maps := LevelMaps(c, levels, plotDir, scaled);
    ghost var names := LevelNames(levels);
    var i := 0;
    while i < |levels|
      invariant 0 <= i <= |levels|
      invariant forall k :: 0 <= k < i ==> maps[k].Ok?
      invariant fs.outputs == old(fs.outputs) + Images(maps, i)
      invariant fs.dirs == old(fs.dirs) + LevelDirs(plotDir, names, i)
      invariant fs.IsDir(plotDir)
    {
      MakeLevelDir(levels, i, plotDir, fs, names, old(fs.dirs));
      err := SaveMap(c, levels, i, plotDir, scaled, fs, maps, old(fs.outputs));
      if err.Some? {
        return;
      }
      i := i + 1;
    }
    FirstFailureSkips(maps, 0, |levels|);
    err := None;
  }

  /** cubes[1] of iris.load(source_file): the second cube, skipping the
      ground-level field. */
  function SecondCube(store: Store, file: Path): Result<Cube> {
    match IrisLoad(store, file)
    case Err(e) => Err(e)
    case Ok(cubes) => if |cubes| < 2 then Err(IndexError) else Ok(cubes[1])
  }

  /** What plot_levels produces for one file: the error raised (if any) and
      the maps saved, in order. `reachable` says whether plots/ exists or
      can be made, that is whether it or the output directory exists. */
  function LevelsOutcome(store: Store, file: Path, outputDir: Path, scaled: bool, reachable: bool): (Option<Error>, seq<Output>) {
    match SecondCube(store, file)
    case Err(e) => (Some(e), [])
    case Ok(c) =>
      var plotDir := outputDir + ["plots"];
      if !reachable then (Some(FileNotFound(plotDir)), [])
      else
        match c.CoordNamed("altitude")
        case None => (Some(CoordinateNotFound("altitude")), [])
        case Some(z) => LevelsRun(LevelMaps(c, z.points, plotDir, scaled), 0)
  }

  /** Without an output directory plot_levels raises and saves nothing. */
  lemma UnreachableFails(store: Store, file: Path, outputDir: Path, scaled: bool)
    ensures LevelsOutcome(store, file, outputDir, scaled, false).0.Some?
    ensures LevelsOutcome(store, file, outputDir, scaled, false).1 == []
  {
  }

  /** Every map a file produces is saved two levels below plots/. */
  lemma LevelsOutcomeUnderPlots(store: Store, file: Path, outputDir: Path, scaled: bool, reachable: bool)
    ensures forall o :: o in LevelsOutcome(store, file, outputDir, scaled, reachable).1 ==>
              o.LevelImage? && |o.path| == |outputDir| + 3 && o.path[..|outputDir| + 1] == outputDir + ["plots"]
  {
    if reachable && SecondCube(store, file).Ok? && SecondCube(store, file).value.CoordNamed("altitude").Some? {
      var c := SecondCube(store, file).value;
      var levels := c.CoordNamed("altitude").value.points;
      var plotDir := outputDir + ["plots"];
      var maps := LevelMaps(c, levels, plotDir, scaled);
      var images := Images(maps, FirstFailure(maps, 0));
      LevelsRunImages(maps);
      forall o | o in images
        ensures o.LevelImage? && |o.path| == |plotDir| + 2 && o.path[..|plotDir|] == plotDir
      {
        var k :| 0 <= k < |images| && images[k] == o;
        ImagePath(c, levels, plotDir, scaled, k);
      }
    }
  }

  /** plot_levels: load the file, take its second cube, make plots/ when
      missing, then draw each altitude level. */
  method PlotLevels(file: Path, outputDir: Path, store: Store, fs: FileSystem, scaled: bool)
    returns (err: Option<Error>)
    modifies fs
    ensures var plotDir := outputDir + ["plots"];
      var step := LevelsOutcome(store, file, outputDir, scaled, old(fs.IsDir(plotDir) || fs.IsDir(outputDir)));
      && err == step.0 && fs.outputs == old(fs.outputs) + step.1
      && (SecondCube(store, file).Err? || !old(fs.IsDir(plotDir) || fs.IsDir(outputDir)) ==> fs.dirs == old(fs.dirs))
      && old(fs.dirs) <= fs.dirs
      && (forall p :: p in fs.dirs - old(fs.dirs) ==> p == plotDir || Parent(p) == plotDir)
  {
    var cube := SecondCube(store, file);
    if cube.Err? {
      return Some(cube.error);
    }
    var c := cube.value;
    var plotDir := outputDir + ["plots"];
    if !fs.IsDir(plotDir) {
      ParentOfChild(outputDir, "plots");
      err := fs.MakeDir(plotDir);
      if err.Some? {
        return;
      }
    }
    var altitude := c.CoordNamed("altitude");
    if altitude.None? {
      return Some(CoordinateNotFound("altitude"));
    }
    var levels := altitude.value.points;
    err := DrawLevels(c, levels, plotDir, scaled, fs);
    ghost var maps := LevelMaps(c, levels, plotDir, scaled);
    ghost var stop := FirstFailure(maps, 0);
    LevelsRunImages(maps);
    LevelDirsInside(plotDir, LevelNames(levels), if stop < |maps| then stop + 1 else stop);
  }

  /** Steps run in turn until one raises: the error (if any) and the
      outputs of every step run, in order. */
  function RunInTurn(steps: seq<(Option<Error>, seq<Output>)>): (Option<Error>, seq<Output>) {
    if steps == [] then (None, [])
    else if steps[0].0.Some? then steps[0]
    else
      var rest := RunInTurn(steps[1..]);
      (rest.0, steps[0].1 + rest.1)
  }

  /** The run raises exactly when some step does, and then raises the error
      of the first such step. */
  lemma {:induction false} RunInTurnError(steps: seq<(Option<Error>, seq<Output>)>)
    ensures RunInTurn(steps).0.None? <==> forall k :: 0 <= k < |steps| ==> steps[k].0.None?
    ensures RunInTurn(steps).0.Some? ==>
              exists k :: 0 <= k < |steps| && steps[k].0 == RunInTurn(steps).0
                          && forall j :: 0 <= j < k ==> steps[j].0.None?
  {
    if steps != [] && steps[0].0.None? {
      RunInTurnError(steps[1..]);
      if RunInTurn(steps).0.Some? {
        var k :| 0 <= k < |steps[1..]| && steps[1..][k].0 == RunInTurn(steps[1..]).0
                 && forall j :: 0 <= j < k ==> steps[1..][j].0.None?;
        assert steps[k + 1].0 == RunInTurn(steps).0;
      }
    }
  }

  /** The outputs of the first n steps, in order. */
  function Outputs(steps: seq<(Option<Error>, seq<Output>)>, n: nat): seq<Output>
    requires n <= |steps|
  {
    if n == 0 then [] else Outputs(steps, n - 1) + steps[n - 1].1
  }

  /** Past steps that do not raise, the run goes on with the rest: its
      outputs are theirs followed by those of the rest. */
  lemma {:induction false} RunInTurnPrefix(steps: seq<(Option<Error>, seq<Output>)>, n: nat)
    requires n <= |steps|
    requires forall k :: 0 <= k < n ==> steps[k].0.None?
    ensures RunInTurn(steps).0 == RunInTurn(steps[n..]).0
    ensures RunInTurn(steps).1 == Outputs(steps, n) + RunInTurn(steps[n..]).1
  {
    if n > 0 {
      RunInTurnPrefix(steps, n - 1);
      var rest := steps[n - 1..];
      assert rest[1..] == steps[n..];
      assert RunInTurn(rest) == (RunInTurn(steps[n..]).0, steps[n - 1].1 + RunInTurn(steps[n..]).1);
    }
  }

  /** A run that meets a raising step stops there, with the outputs up to
      and including that step. */
  lemma RunInTurnStopsAt(steps: seq<(Option<Error>, seq<Output>)>, i: nat)
    requires i < |steps| && steps[i].0.Some?
    requires forall k :: 0 <= k < i ==> steps[k].0.None?
    ensures RunInTurn(steps) == (steps[i].0, Outputs(steps, i + 1))
  {
    RunInTurnPrefix(steps, i);
    assert steps[i..][0] == steps[i];
  }

  /** A run whose steps never raise runs them all. */
  lemma RunInTurnCompletes(steps: seq<(Option<Error>, seq<Output>)>)
    requires forall k :: 0 <= k < |steps| ==> steps[k].0.None?
    ensures RunInTurn(steps) == (None, Outputs(steps, |steps|))
  {
    RunInTurnPrefix(steps, |steps|);
    assert steps[|steps|..] == [];
    assert Outputs(steps, |steps|) + [] == Outputs(steps, |steps|);
  }

  /** What plot_levels produces for each file, in turn. */
  function FileSteps(store: Store, files: seq<Path>, outputDir: Path, scaled: bool, reachable: bool): (r: seq<(Option<Error>, seq<Output>)>)
    ensures |r| == |files|
  {
    if files == [] then []
    else [LevelsOutcome(store, files[0], outputDir, scaled, reachable)] + FileSteps(store, files[1..], outputDir, scaled, reachable)
  }

  lemma {:induction false} FileStepAt(store: Store, files: seq<Path>, outputDir: Path, scaled: bool, reachable: bool, i: nat)
    requires i < |files|
    ensures FileSteps(store, files, outputDir, scaled, reachable)[i] == LevelsOutcome(store, files[i], outputDir, scaled, reachable)
  {
    if i > 0 {
      FileStepAt(store, files[1..], outputDir, scaled, reachable, i - 1);
    }
  }

  /** The files glob finds in `dir` for the pattern prefix + '*': the name
      starts with the prefix, and a hidden name needs a prefix that starts
      with '.' as well. */
  function Glob(store: Store, dir: Path, prefix: string): set<Path> {
    set p | p in store && |p| == |dir| + 1 && p[..|dir|] == dir && prefix <= p[|dir|]
                        && (p[|dir|] != "" && p[|dir|][0] == '.' ==> prefix != "")
  }

  /** One pass of the loop of plot_name_files: plot_levels on the i-th
      file, whose outputs follow those of the files before it. */
  method PlotFileAt(files: seq<Path>, i: nat, outputDir: Path, store: Store, fs: FileSystem, scaled: bool,
                    ghost reachable: bool, ghost steps: seq<(Option<Error>, seq<Output>)>, ghost before: seq<Output>)
    returns (err: Option<Error>)
    requires i < |files|
    requires reachable == (fs.IsDir(outputDir + ["plots"]) || fs.IsDir(outputDir))
    requires steps == FileSteps(store, files, outputDir, scaled, reachable)
    requires fs.outputs == before + Outputs(steps, i)
    modifies fs
    ensures err == steps[i].0 && fs.outputs == before + Outputs(steps, i + 1)
    ensures reachable ==> fs.IsDir(outputDir + ["plots"]) || fs.IsDir(outputDir)
    ensures err.None? ==> reachable
    ensures old(fs.dirs) <= fs.dirs
    ensures forall p :: p in fs.dirs - old(fs.dirs) ==> p == outputDir + ["plots"] || Parent(p) == outputDir + ["plots"]
  {
    err := PlotLevels(files[i], outputDir, store, fs, scaled);
    FileStepAt(store, files, outputDir, scaled, reachable, i);
    UnreachableFails(store, files[i], outputDir, scaled);
    AppendAssociates(before, Outputs(steps, i), steps[i].1);
  }

  /** The loop of plot_name_files over the files found, in order, until
      one fails. */
  method PlotFiles(files: seq<Path>, outputDir: Path, store: Store, fs: FileSystem, scaled: bool)
    returns (err: Option<Error>)
    modifies fs
    ensures var run := RunInTurn(FileSteps(store, files, outputDir, scaled,
                                           old(fs.IsDir(outputDir + ["plots"]) || fs.IsDir(outputDir))));
      err == run.0 && fs.outputs == old(fs.outputs) + run.1
    ensures old(fs.dirs) <= fs.dirs
    ensures forall p :: p in fs.dirs - old(fs.dirs) ==> p == outputDir + ["plots"] || Parent(p) == outputDir + ["plots"]
  {
    ghost var reachable := fs.IsDir(outputDir + ["plots"]) || fs.IsDir(outputDir);
    ghost var steps := FileSteps(store, files, outputDir, scaled, reachable);
    var i := 0;
    while i < |files|
      invariant 0 <= i <= |files|
      invariant old(fs.dirs) <= fs.dirs
      invariant forall p :: p in fs.dirs - old(fs.dirs) ==> p == outputDir + ["plots"] || Parent(p) == outputDir + ["plots"]
      invariant reachable == (fs.IsDir(outputDir + ["plots"]) || fs.IsDir(outputDir))
      invariant forall k :: 0 <= k < i ==> steps[k].0.None?
      invariant fs.outputs == old(fs.outputs) + Outputs(steps, i)
    {
      err := PlotFileAt(files, i, outputDir, store, fs, scaled, reachable, steps, old(fs.outputs));
      if err.Some? {
        RunInTurnStopsAt(steps, i);
        return;
      }
      i := i + 1;
    }
    RunInTurnCompletes(steps);
    err := None;
  }

  /** plot_name_files: the output directory defaults to the source
      directory; every file glob finds is drawn, in the order glob returns
      them (`files`). */
  method PlotNameFiles(sourceDir: Path, prefix: string, outputDir: Option<Path>, files: seq<Path>,
                       store: Store, fs: FileSystem, scaled: bool)
    returns (err: Option<Error>)
    requires (set f | f in files) == Glob(store, sourceDir, prefix)
    requires forall i, j :: 0 <= i < j < |files| ==> files[i] != files[j]
    modifies fs
    ensures var out := if outputDir.Some? then outputDir.value else sourceDir;
      var run := RunInTurn(FileSteps(store, files, out, scaled, old(fs.IsDir(out + ["plots"]) || fs.IsDir(out))));
      && err == run.0 && fs.outputs == old(fs.outputs) + run.1
      && old(fs.dirs) <= fs.dirs
      && (forall p :: p in fs.dirs - old(fs.dirs) ==> p == out + ["plots"] || Parent(p) == out + ["plots"])
  {
    var out := if outputDir.Some? then outputDir.value else sourceDir;
    err := PlotFiles(files, out, store, fs, scaled);
  }
}
