/** What every simulator adapter shares: recognising a vertical coordinate,
    the run title, tagging an extracted field with its quantity, selecting and
    concatenating the cubes of one field, opening a NetCDF source, and the
    three plot operations with their summary page. */
module AshModelResult {
  import opened Common
  import opened Cubes
  import opened Text
  import opened Workspace

  /** Names of the coordinates that mark a field as having vertical levels. */
  const ZLevelNames: set<string> := {"altitude", "alt", "flight_level", "z coordinate of x-y plane cuts"}

  function HasZLevels(c: Cube): (b: bool)
    ensures b <==> exists z :: z in c.coords && z.name in ZLevelNames
  {
    var shared := ZLevelNames * c.CoordNames();
    if shared != {} then
      var n :| n in shared;
      assert exists z :: z in c.coords && z.name == n;
      true
    else
      assert forall z :: z in c.coords ==> z.name !in ZLevelNames by {
        forall z | z in c.coords
          ensures z.name !in ZLevelNames
        {
          assert z.name in c.CoordNames();
          assert z.name !in shared;
        }
      }
      false
  }

  /** The run title: the 'Title' attribute, else 'TITLE', else ''. */
  function ModelRunTitle(attributes: map<string, string>): (title: string)
    ensures "Title" in attributes ==> title == attributes["Title"]
    ensures "Title" !in attributes && "TITLE" in attributes ==> title == attributes["TITLE"]
    ensures "Title" !in attributes && "TITLE" !in attributes ==> title == ""
    ensures title != "" ==> title in attributes.Values
  {
    if "Title" in attributes then attributes["Title"]
    else if "TITLE" in attributes then attributes["TITLE"]
    else ""
  }

  /** The value of an accessor: no matching data (None), a field, or an
      exception that escapes it. */
  datatype Fetched = Absent | Present(cube: Cube) | Failed(error: Error)

  /** The attributes every extracted field is given. */
  const TagKeys: set<string> := {"model_run_title", "quantity", "CF Standard Name"}

  /** The attributes an accessor sets on the field it returns. */
  function Tag(c: Cube, q: Quantity): (r: Cube)
    ensures r == c.(attributes := r.attributes)
    ensures r.attributes.Keys == c.attributes.Keys + TagKeys
    ensures "model_run_title" in r.attributes && "quantity" in r.attributes && "CF Standard Name" in r.attributes
    ensures r.attributes["model_run_title"] == ModelRunTitle(c.attributes)
    ensures r.attributes["quantity"] == q.Label()
    ensures r.attributes["CF Standard Name"] == q.CfStandardName()
    ensures forall k :: k in c.attributes && k !in TagKeys ==> r.attributes[k] == c.attributes[k]
  {
    c.(attributes := c.attributes["model_run_title" := ModelRunTitle(c.attributes)]
                                 ["quantity" := q.Label()]
                                 ["CF Standard Name" := q.CfStandardName()])
  }

  /** Tagging again, for another quantity, leaves only the second tags: the
      run title is read from attributes tagging never touches. */
  lemma RetagReplaces(c: Cube, q1: Quantity, q2: Quantity)
    ensures Tag(Tag(c, q1), q2) == Tag(c, q2)
  {
    var a := Tag(Tag(c, q1), q2).attributes;
    var b := Tag(c, q2).attributes;
    TagKeepsTitle(c, q1);
    assert a.Keys == b.Keys;
    forall k | k in a.Keys
      ensures a[k] == b[k]
    {
      if k !in TagKeys {
        assert a[k] == Tag(c, q1).attributes[k] == c.attributes[k];
      }
    }
  }

  /** Tagging leaves the run title as it was. */
  lemma TagKeepsTitle(c: Cube, q: Quantity)
    ensures ModelRunTitle(Tag(c, q).attributes) == ModelRunTitle(c.attributes)
  {
    var t := Tag(c, q).attributes;
    assert "Title" !in TagKeys && "TITLE" !in TagKeys;
    assert "Title" in t <==> "Title" in c.attributes;
    assert "TITLE" in t <==> "TITLE" in c.attributes;
  }

  /** The cube_func of an accessor's constraint. */
  predicate Accepts(c: Cube, names: set<string>, requireZLevels: bool) {
    c.name in names && (requireZLevels ==> HasZLevels(c))
  }

  /** Extract the cubes with one of `names` (and vertical levels, when
      required), concatenate them, and tag the result. concatenate_cube's
      ValueError on an empty selection becomes Absent; a ConcatenateError
      escapes. */
  function Select(cubes: seq<Cube>, names: set<string>, requireZLevels: bool, q: Quantity): (r: Fetched)
    ensures r.Failed? ==> r.error == ConcatenateError
  {
    var valid := ExtractCubes(cubes, c => Accepts(c, names, requireZLevels));
    match ConcatenateCube(valid)
    case NothingToJoin => Absent
    case Conflict => Failed(ConcatenateError)
    case Joined(c) => Present(Tag(c, q))
  }

  /** Nothing is selected exactly when no cube is accepted; what is selected
      has an accepted name (and vertical levels, when required) and is
      tagged for `q`; a single accepted cube is selected as it is, tagged. */
  lemma SelectSpec(cubes: seq<Cube>, names: set<string>, requireZLevels: bool, q: Quantity)
    ensures var r := Select(cubes, names, requireZLevels, q);
      && (r.Absent? <==> forall c :: c in cubes ==> !Accepts(c, names, requireZLevels))
      && (r.Present? ==> r.cube.name in names && (requireZLevels ==> HasZLevels(r.cube)))
      && (r.Present? ==> ("quantity" in r.cube.attributes && r.cube.attributes["quantity"] == q.Label()
                          && "CF Standard Name" in r.cube.attributes
                          && r.cube.attributes["CF Standard Name"] == q.CfStandardName()))
      && (forall c :: c in cubes && Accepts(c, names, requireZLevels)
                      && (forall d :: d in cubes && Accepts(d, names, requireZLevels) ==> d == c)
                      && |ExtractCubes(cubes, d => Accepts(d, names, requireZLevels))| == 1
                      ==> r == Present(Tag(c, q)))
  {
    var valid := ExtractCubes(cubes, c => Accepts(c, names, requireZLevels));
    if valid != [] {
      assert valid[0] in valid;
      if ConcatenateCube(valid).Joined? {
        assert HasZLevels(ConcatenateCube(valid).cube) == HasZLevels(valid[0]);
      }
    }
  }

  /** An accessor of an adapter that selects its field by `names`, asking
      for vertical levels for air concentration only: what it finds has one
      of the names (and vertical levels, for air concentration), and it
      finds nothing exactly when no cube qualifies. */
  lemma AccessorFound(cubes: seq<Cube>, names: set<string>, q: Quantity)
    ensures var r := Select(cubes, names, q == AirConcentration, q);
      && (r.Present? ==> r.cube.name in names)
      && (r.Present? && q == AirConcentration ==> HasZLevels(r.cube))
      && (r.Absent? <==> forall c :: c in cubes ==> c.name !in names || (q == AirConcentration && !HasZLevels(c)))
  {
    SelectSpec(cubes, names, q == AirConcentration, q);
  }

  /** Where the data of a result come from: one path, or a list of paths.
      `asText` records that the one path was given as a str (as the command
      line gives it) rather than as a pathlib.Path. */
  datatype Source = OnePath(path: Path, asText: bool) | PathList(paths: seq<Path>)

  /** A file the netCDF4 driver cannot open is refused before iris reads it. */
  function LoadFromNetcdf(store: Store, p: Path): (r: Result<seq<Cube>>)
    ensures r.Err? <==> !NetcdfOpens(store, p)
    ensures r.Err? ==> r.error == InvalidNetcdf(p) && r.error.IsAshModelResultError()
    ensures r.Ok? ==> r.value == store[p].cubes
  {
    if !NetcdfOpens(store, p) then Err(InvalidNetcdf(p)) else IrisLoad(store, p)
  }

  /** Loading a source that must be one NetCDF file: Path(source) refuses a
      list and turns a str into a Path, then the file is checked by the NetCDF driver and read by iris. */
  function LoadNetcdfSource(source: Source, store: Store): (r: Result<seq<Cube>>)
    ensures source.PathList? ==> r == Err(TypeError)
    ensures source.OnePath? && !NetcdfOpens(store, source.path) ==>
              r == Err(InvalidNetcdf(source.path)) && r.error.IsAshModelResultError()
    ensures source.OnePath? && NetcdfOpens(store, source.path) ==> r == Ok(store[source.path].cubes)
  {
    match source
    case PathList(_) => Err(TypeError)
    case OnePath(p, _) => LoadFromNetcdf(store, p)
  }

  /** Warnings an accessor emits. */
  datatype Warning =
    | GrainsUnits              // FALL3D reports 'gr/m3', grains per cubic metre
    | MissingUnits(used: Unit) // HYSPLIT reports no units; `used` is put in their place

  /** Air concentration goes to plot_3d_cube when its data has three axes
      and to plot_4d_cube otherwise; the other fields always to plot_3d_cube. */
  function PlotterFor(q: Quantity, c: Cube): (p: Plotter)
    ensures p == Plot4D <==> q == AirConcentration && c.data.Ndim() != 3
  {
    if q == AirConcentration && c.data.Ndim() != 3 then Plot4D else Plot3D
  }

  /** The keyword arguments the plotter receives: plot_air_concentration
      sets vaac_colours (False unless given); the other plots pass them on. */
  function PlotKwargs(q: Quantity, options: PlotOptions): (r: PlotOptions)
    ensures r.limits == options.limits && r.bboxInches == options.bboxInches
    ensures q != AirConcentration ==> r == options
    ensures q == AirConcentration ==> r.vaacColours.Some?
    ensures q == AirConcentration && options.vaacColours.Some? ==> r == options
  {
    if q == AirConcentration then
      options.(vaacColours := Some(options.vaacColours.Some? && options.vaacColours.value))
    else options
  }

  function Lookup(attributes: map<string, string>, key: string): Option<string> {
    if key in attributes then Some(attributes[key]) else None
  }

  /** The summary page name: the non-empty values among model_run_title,
      quantity and 'summary.html', joined by '_', spaces replaced by '_'. */
  function SummaryName(attributes: map<string, string>): string {
    ReplaceSpaces(JoinPresent([Lookup(attributes, "model_run_title"), Lookup(attributes, "quantity"),
                               Some("summary.html")], "_"))
  }

  /** A present, non-empty part followed by the separator; nothing otherwise. */
  function Part(o: Option<string>): string {
    if o.Some? && o.value != "" then o.value + "_" else ""
  }

  /** The summary name spelled out: an empty or missing title leaves no
      leading underscore. */
  lemma SummaryNameForm(attributes: map<string, string>)
    ensures SummaryName(attributes)
            == ReplaceSpaces(Part(Lookup(attributes, "model_run_title"))
                             + Part(Lookup(attributes, "quantity")) + "summary.html")
  {
    var t := Lookup(attributes, "model_run_title");
    var q := Lookup(attributes, "quantity");
    var joined := JoinPresent([t, q, Some("summary.html")], "_");
    assert joined == Part(t) + Part(q) + "summary.html" by {
      var last := [Some("summary.html")];
      assert NonEmptyParts(last) == ["summary.html"] by {
        assert last[1..] == [];
      }
      NonEmptyPartsCons(q, last);
      NonEmptyPartsCons(t, [q] + last);
      assert [t, q, Some("summary.html")] == [t] + ([q] + last);
      JoinAfterPart(q, ["summary.html"]);
      JoinAfterPart(t, PresentPart(q) + ["summary.html"]);
      AppendAssociates(Part(t), Part(q), "summary.html");
    }
  }

  /** The one-element list a present, non-empty part contributes. */
  function PresentPart(o: Option<string>): (r: seq<string>)
    ensures |r| <= 1 && (r == [] <==> Part(o) == "")
  {
    if Part(o) == "" then [] else [o.value]
  }

  /** The non-empty parts of a list, taken one part at a time. */
  lemma {:induction false} NonEmptyPartsCons(o: Option<string>, rest: seq<Option<string>>)
    ensures NonEmptyParts([o] + rest) == PresentPart(o) + NonEmptyParts(rest)
  {
    assert ([o] + rest)[1..] == rest;
  }

  /** Joining with '_' after a part is writing the part with its separator. */
  lemma {:induction false} JoinAfterPart(o: Option<string>, xs: seq<string>)
    requires xs != []
    ensures JoinStrings(PresentPart(o) + xs, "_") == Part(o) + JoinStrings(xs, "_")
  {
    if Part(o) != "" {
      assert (PresentPart(o) + xs)[1..] == xs;
    } else {
      assert PresentPart(o) + xs == xs;
    }
  }

  /** The summary page name ends in 'summary.html' and holds no space. */
  lemma SummaryNameShape(attributes: map<string, string>)
    ensures |SummaryName(attributes)| >= 12
    ensures SummaryName(attributes)[|SummaryName(attributes)| - 12..] == "summary.html"
    ensures ' ' !in SummaryName(attributes)
  {
    SummaryNameForm(attributes);
    var prefix := Part(Lookup(attributes, "model_run_title")) + Part(Lookup(attributes, "quantity"));
    ReplaceSpacesAppend(prefix, "summary.html");
    SummarySuffixKept();
  }

  /** 'summary.html' holds no space, so it is kept as it is. */
  lemma SummarySuffixKept()
    ensures ReplaceSpaces("summary.html") == "summary.html"
  {
    ReplaceSpacesNoSpace("summary.html");
  }

  /** What plot_air_concentration, plot_total_column and
      plot_total_deposition do, given what the accessor returned and whether
      the output directory exists: the error raised (if any) and the outputs
      produced, in order. An exception from the accessor escapes; no field
      raises AshModelResultError before anything is drawn; otherwise the field
      is drawn on a scale from 0 to its maximum, then the summary page is
      written when `html` is set. */
  function PlotResult(q: Quantity, fetched: Fetched, outputDir: Path, fileExt: string, html: bool,
                      options: PlotOptions, outputDirExists: bool): (r: (Option<Error>, seq<Output>))
    ensures fetched.Failed? ==> r == (Some(fetched.error), [])
    ensures fetched.Absent? ==> r.0 == Some(NoData(q)) && r.0.value.IsAshModelResultError() && r.1 == []
    ensures fetched.Present? && Cells(fetched.cube.data) == [] ==> r == (Some(EmptyArray), [])
    ensures fetched.Present? && Cells(fetched.cube.data) != [] ==>
      var c := fetched.cube;
      && 1 <= |r.1| <= 2
      && r.1[0].CubePlots? && r.1[0].cube == c && r.1[0].vmin == 0.0
      && r.1[0].plotter == PlotterFor(q, c) && r.1[0].options == PlotKwargs(q, options)
      && r.1[0].outputDir == outputDir && r.1[0].fileExt == fileExt
      && (forall x :: x in Cells(c.data) ==> x <= r.1[0].vmax)
      && r.1[0].vmax in Cells(c.data)
      && (|r.1| == 2 <==> html && outputDirExists)
      && (|r.1| == 2 ==> r.1[1] == TextFile(outputDir + [SummaryName(c.attributes)]))
      && (r.0.Some? <==> html && !outputDirExists)
      && (r.0.Some? ==> r.0.value == FileNotFound(outputDir + [SummaryName(c.attributes)]))
  {
    match fetched
    case Failed(e) => (Some(e), [])
    case Absent => (Some(NoData(q)), [])
    case Present(c) =>
      match DataMax(c.data)
      case Err(e) => (Some(e), [])
      case Ok(vmax) =>
        var plots := CubePlots(PlotterFor(q, c), c, outputDir, fileExt, 0.0, vmax, PlotKwargs(q, options));
        var page := TextFile(outputDir + [SummaryName(c.attributes)]);
        if !html then (None, [plots])
        else if outputDirExists then (None, [plots, page])
        else (Some(FileNotFound(page.path)), [plots])
  }

  /** The plot operations, carried out on the file system. */
  method PlotQuantity(q: Quantity, fetched: Fetched, outputDir: Path, fileExt: string, html: bool,
                      options: PlotOptions, fs: FileSystem) returns (err: Option<Error>)
    modifies fs
    ensures var (e, outs) := PlotResult(q, fetched, outputDir, fileExt, html, options, old(fs.IsDir(outputDir)));
      err == e && fs.outputs == old(fs.outputs) + outs
    ensures fs.dirs == old(fs.dirs)
  {
    match fetched
    case Failed(e) =>
      return Some(e);
    case Absent =>
      return Some(NoData(q));
    case Present(c) =>
      err := PlotCube(q, c, outputDir, fileExt, html, options, fs);
  }

  /** The plots of a cube that was found, and the summary page. */
  method PlotCube(q: Quantity, c: Cube, outputDir: Path, fileExt: string, html: bool,
                  options: PlotOptions, fs: FileSystem) returns (err: Option<Error>)
    modifies fs
    ensures var (e, outs) := PlotResult(q, Present(c), outputDir, fileExt, html, options, old(fs.IsDir(outputDir)));
      err == e && fs.outputs == old(fs.outputs) + outs
    ensures fs.dirs == old(fs.dirs)
  {
    var vmax := DataMax(c.data);
    if vmax.Err? {
      return Some(vmax.error);
    }
    fs.Render(CubePlots(PlotterFor(q, c), c, outputDir, fileExt, 0.0, vmax.value, PlotKwargs(q, options)));
    err := None;
    if html {
      var page := TextFile(outputDir + [SummaryName(c.attributes)]);
      assert Parent(page.path) == outputDir;
      err := fs.Write(page);
    }
  }
}
