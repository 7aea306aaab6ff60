/** Results of the NAME dispersion model: one NetCDF file, one NAME text
    file, or a list of NAME text files. */
module NameResults {
  import opened Common
  import opened Cubes
  import opened Text
  import opened Workspace
  import opened AshModelResult

  const AirConcentrationNames: set<string> := {"VOLCANIC_ASH_AIR_CONCENTRATION"}
  const TotalColumnNames: set<string> := {"VOLCANIC_ASH_DOSAGE"}
  const TotalDepositionNames: set<string> := {"VOLCANIC_ASH_TOTAL_DEPOSITION"}

  function NamesFor(q: Quantity): set<string> {
    match q
    case AirConcentration => AirConcentrationNames
    case TotalColumn => TotalColumnNames
    case TotalDeposition => TotalDepositionNames
  }

  /** A path whose suffix is '.nc' in any letter case. */
  predicate IsNetcdfPath(p: Path) {
    p != [] && LowerAscii(Suffix(p[|p| - 1])) == ".nc"
  }

  /** _load_cubes as intended: a list is loaded as a set of NAME files; a
      single source is first made a Path, as the FALL3D and HYSPLIT adapters
      do, so a '.nc' path is checked by the NetCDF driver and refused with
      AshModelResultError whether it was given as a str or a Path; any other
      path is read as a single NAME file, and a missing one raises
      AshModelResultError. */
  function LoadCubes(source: Source, store: Store): (r: Result<seq<Cube>>)
    ensures source.PathList? ==> r == IrisLoadAll(store, source.paths)
    ensures source.OnePath? && IsNetcdfPath(source.path) && !NetcdfOpens(store, source.path) ==>
              r.Err? && r.error.IsAshModelResultError()
    ensures source.OnePath? && IsNetcdfPath(source.path) ==> r == LoadFromNetcdf(store, source.path)
    ensures source.OnePath? && !IsNetcdfPath(source.path) ==>
      && (source.path !in store ==> r == Err(NotFound(source.path)) && r.error.IsAshModelResultError())
      && (source.path in store && store[source.path].OtherFile? ==> r == Err(UnknownFormat(source.path)))
      && (source.path in store && !store[source.path].OtherFile? ==> r == Ok(store[source.path].cubes))
  {
    match source
    case PathList(ps) => IrisLoadAll(store, ps)
    case OnePath(p, _) =>
      if IsNetcdfPath(p) then LoadFromNetcdf(store, p)
      else
        match IrisLoad(store, p)
        case Err(FileMissing(_)) => Err(NotFound(p))
        case other => other
  }

  /** _load_cubes as written: the Path made of a single source is bound to
      a local name only, so _load_from_netcdf still sees the str it was
      given and, when the NetCDF driver refuses the file, builds its error
      message with str.absolute(), an AttributeError. */
  function LoadCubesAsWritten(source: Source, store: Store): (r: Result<seq<Cube>>)
    ensures source.PathList? ==> r == IrisLoadAll(store, source.paths)
    ensures source.OnePath? && IsNetcdfPath(source.path) && !NetcdfOpens(store, source.path) ==>
              r.Err? && (r.error.IsAshModelResultError() <==> !source.asText)
    ensures source.OnePath? && IsNetcdfPath(source.path) && NetcdfOpens(store, source.path) ==>
              r == Ok(store[source.path].cubes)
    ensures source.OnePath? && !IsNetcdfPath(source.path) && source.path !in store ==>
              r == Err(NotFound(source.path))
  {
    match source
    case PathList(ps) => IrisLoadAll(store, ps)
    case OnePath(p, asText) =>
      if IsNetcdfPath(p) then
        if !NetcdfOpens(store, p) then
          if asText then Err(StrAttribute("absolute")) else Err(InvalidNetcdf(p))
        else IrisLoad(store, p)
      else
        match IrisLoad(store, p)
        case Err(FileMissing(_)) => Err(NotFound(p))
        case other => other
  }

  /** The one discrepancy: NameAshModelResult('missing.nc') raises an
      AttributeError, which callers catching AshModelResultError miss,
      while the same path given as a Path is refused as invalid NetCDF. */
  lemma StrNetcdfSourceFails()
    ensures LoadCubesAsWritten(OnePath(["missing.nc"], true), map[]) == Err(StrAttribute("absolute"))
    ensures !LoadCubesAsWritten(OnePath(["missing.nc"], true), map[]).error.IsAshModelResultError()
    ensures LoadCubes(OnePath(["missing.nc"], true), map[]) == Err(InvalidNetcdf(["missing.nc"]))
  {
    assert Suffix("missing.nc") == ".nc" by {
      assert RFindDot("missing.nc") == 7 by {
        assert "missing.nc"[7] == '.';
        assert forall j :: 7 < j < 10 ==> "missing.nc"[j] != '.';
      }
    }
    assert LowerAscii(".nc") == ".nc";
    assert IsNetcdfPath(["missing.nc"]);
  }

  /** Everywhere else the code as written loads what the corrected loader
      loads, and the corrected loader does not depend on how the path was
      given. */
  lemma AsWrittenDiffersOnlyForStrNetcdf(source: Source, store: Store)
    ensures LoadCubesAsWritten(source, store) != LoadCubes(source, store) <==>
              source.OnePath? && source.asText && IsNetcdfPath(source.path) && !NetcdfOpens(store, source.path)
    ensures source.OnePath? ==>
              LoadCubes(source, store) == LoadCubes(OnePath(source.path, !source.asText), store)
  {
  }

  /** Upper-case suffixes are recognised too. */
  lemma UpperCaseSuffixIsNetcdf()
    ensures IsNetcdfPath(["data", "VA_Tutorial_NAME_output.NC"])
  {
    var name := "VA_Tutorial_NAME_output.NC";
    assert RFindDot(name) == 23 by {
      assert name[23] == '.';
      assert forall j :: 23 < j < |name| ==> name[j] != '.';
    }
    assert Suffix(name) == ".NC";
    assert LowerAscii(".NC") == ".nc" by {
      assert LowerAscii("C") == "c";
      assert LowerAscii("NC") == "nc";
    }
  }

  /** The value an accessor computes: selection by the field's names, with
      a vertical coordinate required for air concentration only. */
  function Field(cubes: seq<Cube>, q: Quantity): Fetched {
    Select(cubes, NamesFor(q), q == AirConcentration, q)
  }

  /** What each NAME accessor finds is the NAME field of its quantity (with
      vertical levels, for air concentration); it finds nothing exactly when
      no cube qualifies. */
  lemma FieldFound(cubes: seq<Cube>, q: Quantity)
    ensures var r := Field(cubes, q);
      && (r.Present? && q == AirConcentration ==> r.cube.name == "VOLCANIC_ASH_AIR_CONCENTRATION" && HasZLevels(r.cube))
      && (r.Present? && q == TotalColumn ==> r.cube.name == "VOLCANIC_ASH_DOSAGE")
      && (r.Present? && q == TotalDeposition ==> r.cube.name == "VOLCANIC_ASH_TOTAL_DEPOSITION")
      && (r.Absent? <==> forall c :: c in cubes ==> c.name !in NamesFor(q) || (q == AirConcentration && !HasZLevels(c)))
  {
    AccessorFound(cubes, NamesFor(q), q);
  }

  /** A cube named like air concentration but with no vertical coordinate
      (the ground-level field of a NAME run) is never selected. */
  lemma GroundFieldNotAirConcentration(cubes: seq<Cube>, ground: Cube)
    requires ground.name == "VOLCANIC_ASH_AIR_CONCENTRATION" && !HasZLevels(ground)
    requires forall c :: c in cubes ==> c == ground
    ensures Field(cubes, AirConcentration) == Absent
  {
    FieldFound(cubes, AirConcentration);
  }

  class NameAshModelResult {
    /** The source exactly as given: a list stays a list. */
    const sourceData: Source
    const cubes: seq<Cube>
    /** The lru_cache of each accessor: what it returned, once it has. */
    var cache: map<Quantity, Fetched>

    /** Every cached value is what the accessor computes, and exceptions
        are never cached. */
    predicate Valid()
      reads this
    {
      forall q :: q in cache ==> cache[q] == Field(cubes, q) && !cache[q].Failed?
    }

    constructor (source: Source, cubes: seq<Cube>)
      ensures sourceData == source && this.cubes == cubes && cache == map[] && Valid()
    {
      sourceData := source;
      this.cubes := cubes;
      cache := map[];
    }

    /** NameAshModelResult(source): the loading error escapes. */
    static method Open(source: Source, store: Store) returns (r: Result<NameAshModelResult>)
      ensures LoadCubes(source, store).Err? <==> r.Err?
      ensures r.Err? ==> r.error == LoadCubes(source, store).error
      ensures r.Ok? ==> fresh(r.value) && r.value.Valid() && r.value.cache == map[]
                        && r.value.sourceData == source && r.value.cubes == LoadCubes(source, store).value
    {
      var loaded := LoadCubes(source, store);
      if loaded.Err? {
        return Err(loaded.error);
      }
      var result := new NameAshModelResult(source, loaded.value);
      return Ok(result);
    }

    /** The air_concentration, total_column and total_deposition properties. */
    method Fetch(q: Quantity) returns (r: Fetched)
      requires Valid()
      modifies this
      ensures Valid()
      ensures r == Field(cubes, q)
      ensures q in old(cache) ==> cache == old(cache)
      ensures q !in old(cache) ==> cache == if r.Failed? then old(cache) else old(cache)[q := r]
    {
      if q in cache {
        return cache[q];
      }
      r := Field(cubes, q);
      if !r.Failed? {
        cache := cache[q := r];
      }
    }

    /** plot_air_concentration, plot_total_column or plot_total_deposition. */
    method Plot(q: Quantity, outputDir: Path, fileExt: string, html: bool, options: PlotOptions, fs: FileSystem)
      returns (err: Option<Error>)
      requires Valid()
      modifies this, fs
      ensures Valid() && old(cache).Keys <= cache.Keys
      ensures var (e, outs) := PlotResult(q, Field(cubes, q), outputDir, fileExt, html, options, old(fs.IsDir(outputDir)));
        err == e && fs.outputs == old(fs.outputs) + outs
      ensures fs.dirs == old(fs.dirs)
    {
      var fetched := Fetch(q);
      err := PlotQuantity(q, fetched, outputDir, fileExt, html, options, fs);
    }
  }
}
