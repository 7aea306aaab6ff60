/** The earlier, single-class adapter for NAME results in one NetCDF file:
    the fields are selected on every access, never tagged nor cached, air
    concentration is always drawn level by level, and the summary page is
    named after the 'Title' and 'Quantity' attributes of the plotted field. */
module LegacyAshModelResult {
  import opened Common
  import opened Cubes
  import opened Text
  import opened Workspace
  import Base = AshModelResult

  function NameFor(q: Quantity): string {
    match q
    case AirConcentration => "VOLCANIC_ASH_AIR_CONCENTRATION"
    case TotalColumn => "VOLCANIC_ASH_DOSAGE"
    case TotalDeposition => "VOLCANIC_ASH_TOTAL_DEPOSITION"
  }

  /** 'altitude' is the standard name of one of the dimension coordinates. */
  predicate HasAltitudeAxis(c: Cube) {
    Some("altitude") in c.DimStandardNames()
  }

  /** The constraint of each property: the field's name, and for air
      concentration an altitude axis as well. */
  predicate Accepts(c: Cube, q: Quantity) {
    c.name == NameFor(q) && (q == AirConcentration ==> HasAltitudeAxis(c))
  }

  /** The air_concentration, total_column and total_deposition properties:
      the accepted cubes concatenated, None when there are none; the
      attributes stay those of the file. */
  function Field(cubes: seq<Cube>, q: Quantity): (r: Base.Fetched)
    ensures r.Failed? ==> r.error == ConcatenateError
  {
    var valid := ExtractCubes(cubes, c => Accepts(c, q));
    match ConcatenateCube(valid)
    case NothingToJoin => Base.Absent
    case Conflict => Base.Failed(ConcatenateError)
    case Joined(c) => Base.Present(c)
  }

  /** Nothing is found exactly when no cube is accepted; what is found has
      the field's name (and an altitude axis, for air concentration) and the
      attributes of every accepted cube. */
  lemma FieldFound(cubes: seq<Cube>, q: Quantity)
    ensures var r := Field(cubes, q);
      && (r.Absent? <==> forall c :: c in cubes ==> !Accepts(c, q))
      && (r.Present? ==> r.cube.name == NameFor(q))
      && (r.Present? && q == AirConcentration ==> HasAltitudeAxis(r.cube))
      && (r.Present? ==> forall c :: c in cubes && Accepts(c, q) ==> c.attributes == r.cube.attributes)
  {
    var valid := ExtractCubes(cubes, c => Accepts(c, q));
    if valid != [] {
      assert valid[0] in valid;
    }
    if ConcatenateCube(valid).Joined? {
      var c := ConcatenateCube(valid).cube;
      JoinedAgrees(valid);
      assert c.coords == valid[0].coords;
      assert HasAltitudeAxis(c) == HasAltitudeAxis(valid[0]);
    }
  }

  /** A NAME field with only a height coordinate that is not an axis (the
      ground-level field) is not air concentration. */
  lemma ScalarAltitudeNotAirConcentration(cubes: seq<Cube>, ground: Cube)
    requires forall c :: c in cubes ==> c == ground
    requires forall z :: z in ground.coords && z.dim.Some? ==> z.standardName != Some("altitude")
    ensures Field(cubes, AirConcentration) == Base.Absent
  {
    FieldFound(cubes, AirConcentration);
  }

  /** The summary page name: '{Title}_{Quantity}.html' with spaces replaced
      by '_'; a missing attribute raises KeyError. */
  function HtmlName(attributes: map<string, string>): (r: Result<string>)
    ensures r.Ok? <==> "Title" in attributes && "Quantity" in attributes
    ensures "Title" !in attributes ==> r == Err(KeyError("Title"))
    ensures "Title" in attributes && "Quantity" !in attributes ==> r == Err(KeyError("Quantity"))
  {
    if "Title" !in attributes then Err(KeyError("Title"))
    else if "Quantity" !in attributes then Err(KeyError("Quantity"))
    else Ok(ReplaceSpaces(attributes["Title"] + "_" + attributes["Quantity"] + ".html"))
  }

  /** The name is the title, '_', the quantity and '.html', each with its
      spaces replaced, and holds no space. */
  lemma HtmlNameForm(attributes: map<string, string>)
    requires "Title" in attributes && "Quantity" in attributes
    ensures HtmlName(attributes).Ok?
    ensures HtmlName(attributes).value
            == ReplaceSpaces(attributes["Title"]) + "_" + ReplaceSpaces(attributes["Quantity"]) + ".html"
    ensures ' ' !in HtmlName(attributes).value
  {
    var t := attributes["Title"];
    var q := attributes["Quantity"];
    ReplaceSpacesAppend(t + "_" + q, ".html");
    ReplaceSpacesAppend(t + "_", q);
    ReplaceSpacesAppend(t, "_");
    assert ReplaceSpaces("_") == "_";
    assert ReplaceSpaces(".html") == ".html";
  }

  /** Under one title, different quantities give different page names,
      unless they differ only in spaces against underscores. */
  lemma HtmlNamesSeparateQuantities(a: map<string, string>, b: map<string, string>)
    requires "Title" in a && "Quantity" in a && "Title" in b && "Quantity" in b
    requires a["Title"] == b["Title"]
    ensures HtmlName(a) == HtmlName(b) <==> ReplaceSpaces(a["Quantity"]) == ReplaceSpaces(b["Quantity"])
  {
    HtmlNameForm(a);
    HtmlNameForm(b);
    var prefix := ReplaceSpaces(a["Title"]) + "_";
    var qa := ReplaceSpaces(a["Quantity"]);
    var qb := ReplaceSpaces(b["Quantity"]);
    if HtmlName(a) == HtmlName(b) {
      assert prefix + qa + ".html" == prefix + qb + ".html";
      assert |qa| == |qb|;
      assert qa == (prefix + qa + ".html")[|prefix|..|prefix| + |qa|];
      assert qb == (prefix + qb + ".html")[|prefix|..|prefix| + |qb|];
    }
  }

  /** Air concentration goes to plot_4d_cube whatever its shape; the other
      fields to plot_3d_cube. */
  function PlotterFor(q: Quantity): (p: Plotter)
    ensures p == Plot4D <==> q == AirConcentration
  {
    if q == AirConcentration then Plot4D else Plot3D
  }

  /** What plot_air_concentration, plot_total_column and
      plot_total_deposition do: the error raised (if any) and the outputs
      produced, in order. No field raises AshModelResultError before anything
      is drawn; otherwise the field is drawn on a scale from 0 to its maximum
      with the keyword arguments as given, then the page is named and
      written when `html` is set. */
  function PlotResult(q: Quantity, fetched: Base.Fetched, outputDir: Path, fileExt: string, html: bool,
                      options: PlotOptions, outputDirExists: bool): (r: (Option<Error>, seq<Output>))
    ensures fetched.Failed? ==> r == (Some(fetched.error), [])
    ensures fetched.Absent? ==> r.0 == Some(NoData(q)) && r.0.value.IsAshModelResultError() && r.1 == []
    ensures fetched.Present? && Cells(fetched.cube.data) == [] ==> r == (Some(EmptyArray), [])
    ensures fetched.Present? && Cells(fetched.cube.data) != [] ==>
      var c := fetched.cube;
      var name := HtmlName(c.attributes);
      && 1 <= |r.1| <= 2
      && r.1[0].CubePlots? && r.1[0].cube == c && r.1[0].vmin == 0.0
      && r.1[0].plotter == PlotterFor(q) && r.1[0].options == options
      && r.1[0].outputDir == outputDir && r.1[0].fileExt == fileExt
      && (forall x :: x in Cells(c.data) ==> x <= r.1[0].vmax)
      && r.1[0].vmax in Cells(c.data)
      && (|r.1| == 2 <==> html && name.Ok? && outputDirExists)
      && (|r.1| == 2 ==> r.1[1] == TextFile(outputDir + [name.value]))
      && (r.0.Some? <==> html && (name.Err? || !outputDirExists))
      && (html && name.Err? ==> r.0 == Some(name.error))
      && (html && name.Ok? && !outputDirExists ==> r.0 == Some(FileNotFound(outputDir + [name.value])))
  {
    match fetched
    case Failed(e) => (Some(e), [])
    case Absent => (Some(NoData(q)), [])
    case Present(c) =>
      match DataMax(c.data)
      case Err(e) => (Some(e), [])
      case Ok(vmax) =>
        var plots := CubePlots(PlotterFor(q), c, outputDir, fileExt, 0.0, vmax, options);
        if !html then (None, [plots])
        else
          match HtmlName(c.attributes)
          case Err(e) => (Some(e), [plots])
          case Ok(name) =>
            if outputDirExists then (None, [plots, TextFile(outputDir + [name])])
            else (Some(FileNotFound(outputDir + [name])), [plots])
  }

  class LegacyAshModelResult {
    const sourceFile: Path
    const cubes: seq<Cube>

    constructor (source: Path, cubes: seq<Cube>)
      ensures sourceFile == source && this.cubes == cubes
    {
      sourceFile := source;
      this.cubes := cubes;
    }

    /** AshModelResult(source_file): the loading error escapes. */
    static method Open(source: Base.Source, store: Store) returns (r: Result<LegacyAshModelResult>)
      ensures Base.LoadNetcdfSource(source, store).Err? <==> r.Err?
      ensures r.Err? ==> r.error == Base.LoadNetcdfSource(source, store).error
      ensures r.Ok? ==> fresh(r.value) && source.OnePath? && r.value.sourceFile == source.path
                        && r.value.cubes == Base.LoadNetcdfSource(source, store).value
    {
      var loaded := Base.LoadNetcdfSource(source, store);
      if loaded.Err? {
        return Err(loaded.error);
      }
      var result := new LegacyAshModelResult(source.path, loaded.value);
      return Ok(result);
    }

    /** _write_html: the page is rendered, then named, then written. */
    method WriteHtml(outputDir: Path, attributes: map<string, string>, fs: FileSystem) returns (err: Option<Error>)
      modifies fs
      ensures HtmlName(attributes).Err? ==> err == Some(HtmlName(attributes).error) && fs.outputs == old(fs.outputs)
      ensures HtmlName(attributes).Ok? ==>
        var page := TextFile(outputDir + [HtmlName(attributes).value]);
        && (err.None? <==> old(fs.IsDir(outputDir)))
        && (err.Some? ==> err.value == FileNotFound(page.path))
        && fs.outputs == if err.None? then old(fs.outputs) + [page] else old(fs.outputs)
      ensures fs.dirs == old(fs.dirs)
    {
      var name := HtmlName(attributes);
      if name.Err? {
        return Some(name.error);
      }
      var page := TextFile(outputDir + [name.value]);
      ParentOfChild(outputDir, name.value);
      err := fs.Write(page);
    }

    /** plot_air_concentration, plot_total_column or plot_total_deposition. */
    method Plot(q: Quantity, outputDir: Path, fileExt: string, html: bool, options: PlotOptions, fs: FileSystem)
      returns (err: Option<Error>)
      modifies fs
      ensures var (e, outs) := PlotResult(q, Field(cubes, q), outputDir, fileExt, html, options, old(fs.IsDir(outputDir)));
        err == e && fs.outputs == old(fs.outputs) + outs
      ensures fs.dirs == old(fs.dirs)
    {
      var fetched := Field(cubes, q);
      match fetched
      case Failed(e) =>
        return Some(e);
      case Absent =>
        return Some(NoData(q));
      case Present(c) =>
        var vmax := DataMax(c.data);
        if vmax.Err? {
          return Some(vmax.error);
        }
        fs.Render(CubePlots(PlotterFor(q), c, outputDir, fileExt, 0.0, vmax.value, options));
        err := None;
        if html {
          err := WriteHtml(outputDir, c.attributes, fs);
        }
    }
  }
}
