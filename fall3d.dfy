/** Results of the FALL3D tephra model: a single NetCDF file. */
module Fall3dResults {
  import opened Common
  import opened Cubes
  import opened Workspace
  import opened AshModelResult

  const AirConcentrationNames: set<string> := {"tephra_concentration on z-cut planes", "CON"}
  const TotalDepositionNames: set<string> := {"tephra_ground mass load"}
  const TotalColumnNames: set<string> := {"tephra_column mass load"}

  function NamesFor(q: Quantity): set<string> {
    match q
    case AirConcentration => AirConcentrationNames
    case TotalColumn => TotalColumnNames
    case TotalDeposition => TotalDepositionNames
  }

  /** The value an accessor computes. */
  function Field(cubes: seq<Cube>, q: Quantity): Fetched {
    Select(cubes, NamesFor(q), q == AirConcentration, q)
  }

  /** What each FALL3D accessor finds is the FALL3D field of its quantity:
      air concentration under either of its two names, with vertical levels;
      it finds nothing exactly when no cube qualifies. */
  lemma FieldFound(cubes: seq<Cube>, q: Quantity)
    ensures var r := Field(cubes, q);
      && (r.Present? && q == AirConcentration ==>
            (r.cube.name == "tephra_concentration on z-cut planes" || r.cube.name == "CON") && HasZLevels(r.cube))
      && (r.Present? && q == TotalColumn ==> r.cube.name == "tephra_column mass load")
      && (r.Present? && q == TotalDeposition ==> r.cube.name == "tephra_ground mass load")
      && (r.Absent? <==> forall c :: c in cubes ==> c.name !in NamesFor(q) || (q == AirConcentration && !HasZLevels(c)))
  {
    AccessorFound(cubes, NamesFor(q), q);
  }

  /** The warning an accessor raises along with the value it computes:
      air concentration in 'gr/m3' (grains) is reported, and left as it is. */
  function WarningsFor(q: Quantity, r: Fetched): (ws: seq<Warning>)
    ensures ws == [GrainsUnits] <==> q == AirConcentration && r.Present? && r.cube.units == GrainsPerCubicMetre
    ensures ws != [GrainsUnits] ==> ws == []
  {
    if q == AirConcentration && r.Present? && r.cube.units == GrainsPerCubicMetre then [GrainsUnits] else []
  }

  class Fall3DAshModelResult {
    const sourceData: Path
    const cubes: seq<Cube>
    var cache: map<Quantity, Fetched>
    /** Warnings raised so far, oldest first. */
    var warnings: seq<Warning>

    predicate Valid()
      reads this
    {
      forall q :: q in cache ==> cache[q] == Field(cubes, q) && !cache[q].Failed?
    }

    constructor (source: Path, cubes: seq<Cube>)
      ensures sourceData == source && this.cubes == cubes && cache == map[] && warnings == [] && Valid()
    {
      sourceData := source;
      this.cubes := cubes;
      cache := map[];
      warnings := [];
    }

    /** Fall3DAshModelResult(source): the loading error escapes. */
    static method Open(source: Source, store: Store) returns (r: Result<Fall3DAshModelResult>)
      ensures LoadNetcdfSource(source, store).Err? <==> r.Err?
      ensures r.Err? ==> r.error == LoadNetcdfSource(source, store).error
      ensures r.Ok? ==> fresh(r.value) && r.value.Valid() && r.value.cache == map[] && r.value.warnings == []
                        && source.OnePath? && r.value.sourceData == source.path
                        && r.value.cubes == LoadNetcdfSource(source, store).value
    {
      var loaded := LoadNetcdfSource(source, store);
      if loaded.Err? {
        return Err(loaded.error);
      }
      var result := new Fall3DAshModelResult(source.path, loaded.value);
      return Ok(result);
    }

    /** The air_concentration, total_column and total_deposition properties:
        the unit warning is raised only when the value is computed, not when
        it comes from the cache. */
    method Fetch(q: Quantity) returns (r: Fetched)
      requires Valid()
      modifies this
      ensures Valid()
      ensures r == Field(cubes, q)
      ensures q in old(cache) ==> cache == old(cache) && warnings == old(warnings)
      ensures q !in old(cache) ==> cache == (if r.Failed? then old(cache) else old(cache)[q := r])
                                   && warnings == old(warnings) + WarningsFor(q, r)
    {
      if q in cache {
        return cache[q];
      }
      r := Field(cubes, q);
      if q == AirConcentration && r.Present? && r.cube.units == GrainsPerCubicMetre {
        warnings := warnings + [GrainsUnits];
      }
      Remember(q, r);
    }

    /** Caches a property's value; only values that did not fail are kept. */
    method Remember(q: Quantity, r: Fetched)
      requires Valid() && r == Field(cubes, q)
      modifies this
      ensures Valid() && warnings == old(warnings)
      ensures cache == (if r.Failed? then old(cache) else old(cache)[q := r])
    {
      if !r.Failed? {
        cache := cache[q := r];
      }
    }

    /** plot_air_concentration, plot_total_column or plot_total_deposition. */
    method Plot(q: Quantity, outputDir: Path, fileExt: string, html: bool, options: PlotOptions, fs: FileSystem)
      returns (err: Option<Error>)
      requires Valid()
      modifies this, fs
      ensures Valid() && old(cache).Keys <= cache.Keys
      ensures var (e, outs) := PlotResult(q, Field(cubes, q), outputDir, fileExt, html, options, old(fs.IsDir(outputDir)));
        err == e && fs.outputs == old(fs.outputs) + outs
      ensures fs.dirs == old(fs.dirs)
      ensures q in old(cache) ==> warnings == old(warnings)
      ensures q !in old(cache) ==> warnings == old(warnings) + WarningsFor(q, Field(cubes, q))
    {
      var fetched := Fetch(q);
      err := PlotQuantity(q, fetched, outputDir, fileExt, html, options, fs);
    }
  }
}
