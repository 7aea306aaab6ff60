/** The command-line entry point that plots every quantity of one model
    result: it settles the output directory, creates it, opens the result with
    the adapter registered for the model type, then plots air concentration,
    total column and total deposition in turn, skipping any quantity whose
    plot raises the package's own error. */
module PlotAshModelResults {
  import opened Common
  import opened Cubes
  import opened Workspace
  import opened AshModelResult
  import NameResults
  import Fall3dResults
  import HysplitResults

  /** The adapters MODEL_TYPES registers. */
  datatype ModelType = Name | Fall3d | Hysplit

  /** The registry key of each adapter. */
  function Key(m: ModelType): string {
    match m
    case Name => "name"
    case Fall3d => "fall3d"
    case Hysplit => "hysplit"
  }

  /** MODEL_TYPES[key]: a key that names no adapter raises KeyError. */
  function ModelTypeFor(key: string): (r: Result<ModelType>)
    ensures r.Ok? ==> Key(r.value) == key
    ensures r.Err? ==> r.error == KeyError(key) && forall m: ModelType :: Key(m) != key
  {
    if key == "name" then Ok(Name)
    else if key == "fall3d" then Ok(Fall3d)
    else if key == "hysplit" then Ok(Hysplit)
    else Err(KeyError(key))
  }

  /** Every adapter is found under its own key. */
  lemma KeyLooksUp(m: ModelType)
    ensures ModelTypeFor(Key(m)) == Ok(m)
  {
    match m
    case Name =>
    case Fall3d => assert Key(Fall3d) != "name";
    case Hysplit => assert Key(Hysplit) != "name" && Key(Hysplit) != "fall3d";
  }

  /** What constructing the adapter loads, or the error it raises. */
  function Load(m: ModelType, source: Source, store: Store): Result<seq<Cube>> {
    match m
    case Name => NameResults.LoadCubes(source, store)
    case Fall3d => LoadNetcdfSource(source, store)
    case Hysplit => LoadNetcdfSource(source, store)
  }

  /** The value an adapter's accessor for q gives. */
  function ModelField(m: ModelType, cubes: seq<Cube>, q: Quantity): Fetched {
    match m
    case Name => NameResults.Field(cubes, q)
    case Fall3d => Fall3dResults.Field(cubes, q)
    case Hysplit => HysplitResults.Field(cubes, q)
  }

  /** An opened adapter, whichever class it is. */
  datatype Adapter =
    | NameAdapter(name: NameResults.NameAshModelResult)
    | Fall3dAdapter(fall3d: Fall3dResults.Fall3DAshModelResult)
    | HysplitAdapter(hysplit: HysplitResults.HysplitAshModelResult)
  {
    function Repr(): set<object> {
      match this
      case NameAdapter(a) => {a}
      case Fall3dAdapter(a) => {a}
      case HysplitAdapter(a) => {a}
    }

    function Model(): ModelType {
      match this
      case NameAdapter(_) => Name
      case Fall3dAdapter(_) => Fall3d
      case HysplitAdapter(_) => Hysplit
    }

    function Loaded(): seq<Cube> {
      match this
      case NameAdapter(a) => a.cubes
      case Fall3dAdapter(a) => a.cubes
      case HysplitAdapter(a) => a.cubes
    }

    predicate Valid()
      reads Repr()
    {
      match this
      case NameAdapter(a) => a.Valid()
      case Fall3dAdapter(a) => a.Valid()
      case HysplitAdapter(a) => a.Valid()
    }
  }

  /** MODEL_TYPES[model_type](results): the loading error escapes. */
  method Open(m: ModelType, source: Source, store: Store) returns (r: Result<Adapter>)
    ensures r.Err? <==> Load(m, source, store).Err?
    ensures r.Err? ==> r.error == Load(m, source, store).error
    ensures r.Ok? ==> && r.value.Model() == m && r.value.Loaded() == Load(m, source, store).value
                      && r.value.Valid() && fresh(r.value.Repr())
  {
    match m
    case Name =>
      var result := NameResults.NameAshModelResult.Open(source, store);
      if result.Err? {
        return Err(result.error);
      }
      return Ok(NameAdapter(result.value));
    case Fall3d =>
      var result := Fall3dResults.Fall3DAshModelResult.Open(source, store);
      if result.Err? {
        return Err(result.error);
      }
      return Ok(Fall3dAdapter(result.value));
    case Hysplit =>
      var result := HysplitResults.HysplitAshModelResult.Open(source, store);
      if result.Err? {
        return Err(result.error);
      }
      return Ok(HysplitAdapter(result.value));
  }

  /** The keyword arguments every plot call is given. */
  function ScriptOptions(limits: Option<seq<real>>, vaacColours: bool): PlotOptions {
    PlotOptions(limits, Some(vaacColours), Some("tight"))
  }

  /** What one plot call raises (if anything) and what it draws. */
  type Outcome = (Option<Error>, seq<Output>)

  /** One plot_<quantity> call with the default extension and summary page,
      into a directory that exists. */
  function Attempt(m: ModelType, cubes: seq<Cube>, q: Quantity, dir: Path, options: PlotOptions): Outcome {
    PlotResult(q, ModelField(m, cubes, q), dir, "png", true, options, true)
  }

  /** The quantities plotted, in the order the script tries them. */
  const Quantities: seq<Quantity> := [AirConcentration, TotalColumn, TotalDeposition]

  /** The outcome of each plot call, in the order of Quantities. */
  function Outcomes(m: ModelType, cubes: seq<Cube>, dir: Path, options: PlotOptions): seq<Outcome> {
    seq(|Quantities|, j requires 0 <= j < |Quantities| => Attempt(m, cubes, Quantities[j], dir, options))
  }

  /** An error the loop does not catch. */
  predicate Escapes(e: Option<Error>) {
    e.Some? && !e.value.IsAshModelResultError()
  }

  /** The plotting loop over the calls' outcomes: an AshModelResultError is
      swallowed, any other error ends the run. */
  function Attempts(outcomes: seq<Outcome>): (r: Outcome)
    ensures r.0.Some? ==> Escapes(r.0)
  {
    if outcomes == [] then (None, [])
    else if Escapes(outcomes[0].0) then outcomes[0]
    else
      var rest := Attempts(outcomes[1..]);
      (rest.0, outcomes[0].1 + rest.1)
  }

  /** What the calls draw, every one of them made. */
  function Drawn(outcomes: seq<Outcome>): seq<Output> {
    if outcomes == [] then [] else outcomes[0].1 + Drawn(outcomes[1..])
  }

  /** Calls that raise nothing the loop lets through leave the rest of the run
      to the calls after them. */
  lemma {:induction false} AttemptsSplit(outcomes: seq<Outcome>, k: nat)
    requires k <= |outcomes|
    requires forall j :: 0 <= j < k ==> !Escapes(outcomes[j].0)
    ensures var rest := Attempts(outcomes[k..]);
      Attempts(outcomes) == (rest.0, Drawn(outcomes[..k]) + rest.1)
  {
    if k > 0 {
      assert outcomes[1..][k - 1..] == outcomes[k..];
      assert outcomes[1..][..k - 1] == outcomes[..k][1..];
      AttemptsSplit(outcomes[1..], k - 1);
      var first := outcomes[0].1;
      var rest := Attempts(outcomes[k..]).1;
      assert first + (Drawn(outcomes[..k][1..]) + rest) == (first + Drawn(outcomes[..k][1..])) + rest;
    } else {
      assert outcomes[..0] == [] && outcomes[0..] == outcomes;
      var r := Attempts(outcomes);
      assert [] + r.1 == r.1;
    }
  }

  /** When no call raises an error the loop lets through, every call is made
      in turn and the run ends without an error. */
  lemma AttemptsAll(outcomes: seq<Outcome>)
    requires forall j :: 0 <= j < |outcomes| ==> !Escapes(outcomes[j].0)
    ensures Attempts(outcomes) == (None, Drawn(outcomes))
  {
    AttemptsSplit(outcomes, |outcomes|);
    assert outcomes[..|outcomes|] == outcomes && outcomes[|outcomes|..] == [];
  }

  /** The first call whose error the loop lets through ends the run with that
      error, after what it and every earlier call drew; later calls are not made. */
  lemma AttemptsStop(outcomes: seq<Outcome>, k: nat)
    requires k < |outcomes|
    requires forall j :: 0 <= j < k ==> !Escapes(outcomes[j].0)
    requires Escapes(outcomes[k].0)
    ensures Attempts(outcomes) == (outcomes[k].0, Drawn(outcomes[..k + 1]))
  {
    AttemptsSplit(outcomes, k);
    assert outcomes[k..][0] == outcomes[k];
    assert outcomes[..k + 1] == outcomes[..k] + [outcomes[k]];
    DrawnAppend(outcomes[..k], outcomes[k]);
  }

  lemma {:induction false} DrawnAppend(outcomes: seq<Outcome>, o: Outcome)
    ensures Drawn(outcomes + [o]) == Drawn(outcomes) + o.1
  {
    if outcomes != [] {
      assert (outcomes + [o])[1..] == outcomes[1..] + [o];
      DrawnAppend(outcomes[1..], o);
      var first := outcomes[0].1;
      assert first + (Drawn(outcomes[1..]) + o.1) == (first + Drawn(outcomes[1..])) + o.1;
    } else {
      assert [o][1..] == [];
    }
  }

  /** A call that draws nothing and raises an AshModelResultError (or
      nothing) leaves the run to the calls after it. */
  lemma AttemptsSkip(outcomes: seq<Outcome>)
    requires outcomes != [] && !Escapes(outcomes[0].0) && outcomes[0].1 == []
    ensures Attempts(outcomes) == Attempts(outcomes[1..])
  {
    var rest := Attempts(outcomes[1..]);
    assert [] + rest.1 == rest.1;
  }

  /** A result with no data for one quantity still has the others plotted:
      missing air concentration leaves the run to the other two. */
  lemma MissingAirSkipped(m: ModelType, cubes: seq<Cube>, dir: Path, options: PlotOptions)
    requires ModelField(m, cubes, AirConcentration).Absent?
    ensures Attempts(Outcomes(m, cubes, dir, options)) == Attempts(Outcomes(m, cubes, dir, options)[1..])
  {
    var outcomes := Outcomes(m, cubes, dir, options);
    var first := PlotResult(AirConcentration, ModelField(m, cubes, AirConcentration), dir, "png", true, options, true);
    assert outcomes[0] == first;
    AttemptsSkip(outcomes);
  }

  /** Where plots go: the given directory, else the one holding the first
      result; with neither there is no first result to look at. */
  function OutputDirFor(results: seq<Path>, outputDir: Option<Path>): (r: Result<Path>)
    ensures r.Err? <==> outputDir.None? && results == []
    ensures r.Err? ==> r.error == IndexError
    ensures outputDir.Some? ==> r.value == outputDir.value
    ensures outputDir.None? && results != [] && results[0] != [] ==>
      results[0] == r.value + [results[0][|results[0]| - 1]]
  {
    match outputDir
    case Some(d) => Ok(d)
    case None => if results == [] then Err(IndexError) else Ok(Parent(results[0]))
  }

  /** One result is passed to the adapter as a single path, several as a
      list; the command line gives every path as a str. */
  function SourceFor(results: seq<Path>): (r: Source)
    ensures r.OnePath? <==> |results| == 1
    ensures r.OnePath? ==> r.asText
    ensures r.OnePath? ==> r.path == results[0]
    ensures r.PathList? ==> r.paths == results
  {
    if |results| == 1 then OnePath(results[0], true) else PathList(results)
  }

  /** The NetCDF adapters take exactly one file: any other number of results
      fails with the TypeError of Path() applied to a list. */
  lemma NetcdfModelsTakeOneFile(m: ModelType, results: seq<Path>, store: Store)
    requires m != Name && |results| != 1
    ensures Load(m, SourceFor(results), store) == Err(TypeError)
  {
  }

  /** A directory that exists in a file system whose directories are dirs. */
  predicate DirIn(dirs: set<Path>, p: Path) {
    p == [] || p in dirs
  }

  /** The output directory settled and, when missing, created (os.mkdir):
      the directory and the directories afterwards, or the error raised. */
  function Prepared(results: seq<Path>, outputDir: Option<Path>, dirs: set<Path>): (r: Result<(Path, set<Path>)>)
  {
    match OutputDirFor(results, outputDir)
    case Err(e) => Err(e)
    case Ok(d) =>
      if DirIn(dirs, d) then Ok((d, dirs))
      else if DirIn(dirs, Parent(d)) then Ok((d, dirs + {d}))
      else Err(FileNotFound(d))
  }

  /** plot_results once the output directory d exists: the error that
      escapes (if any) and the outputs produced, in order. */
  function RunIn(d: Path, results: seq<Path>, modelType: string, limits: Option<seq<real>>, vaacColours: bool,
                 store: Store): Outcome
  {
    match ModelTypeFor(modelType)
    case Err(e) => (Some(e), [])
    case Ok(m) =>
      match Load(m, SourceFor(results), store)
      case Err(e) => (Some(e), [])
      case Ok(cubes) => Attempts(Outcomes(m, cubes, d, ScriptOptions(limits, vaacColours)))
  }

  /** plot_results: the error that escapes (if any), the directories
      afterwards and the outputs produced, in order. */
  function Run(results: seq<Path>, modelType: string, limits: Option<seq<real>>, vaacColours: bool,
               outputDir: Option<Path>, dirs: set<Path>, store: Store): (r: (Option<Error>, set<Path>, seq<Output>))
  {
    match Prepared(results, outputDir, dirs)
    case Err(e) => (Some(e), dirs, [])
    case Ok((d, made)) =>
      var (e, outs) := RunIn(d, results, modelType, limits, vaacColours, store);
      (e, made, outs)
  }

  /** The output directory is created before the model type is looked up:
      an unknown model type still leaves the directory behind. */
  lemma DirectoryBeforeModelType(results: seq<Path>, modelType: string, limits: Option<seq<real>>, vaacColours: bool,
                                 outputDir: Option<Path>, dirs: set<Path>, store: Store)
    requires OutputDirFor(results, outputDir).Ok?
    requires DirIn(dirs, Parent(OutputDirFor(results, outputDir).value))
    requires ModelTypeFor(modelType).Err?
    ensures var r := Run(results, modelType, limits, vaacColours, outputDir, dirs, store);
      && r.0 == Some(KeyError(modelType)) && r.2 == []
      && DirIn(r.1, OutputDirFor(results, outputDir).value)
  {
  }

  /** A run that gets as far as plotting leaves the output directory in place,
      and anything the loop lets through is an error outside the package's own. */
  lemma RunLeavesDirectory(results: seq<Path>, modelType: string, limits: Option<seq<real>>, vaacColours: bool,
                           outputDir: Option<Path>, dirs: set<Path>, store: Store)
    requires OutputDirFor(results, outputDir).Ok?
    requires DirIn(dirs, Parent(OutputDirFor(results, outputDir).value))
    ensures var r := Run(results, modelType, limits, vaacColours, outputDir, dirs, store);
      && DirIn(r.1, OutputDirFor(results, outputDir).value)
      && dirs <= r.1 <= dirs + {OutputDirFor(results, outputDir).value}
      && (r.0.Some? && ModelTypeFor(modelType).Ok? && Load(ModelTypeFor(modelType).value, SourceFor(results), store).Ok?
          ==> !r.0.value.IsAshModelResultError())
  {
  }

  /** A single plot call, dispatched to the adapter's own class. */
  method PlotWith(a: Adapter, q: Quantity, dir: Path, options: PlotOptions, fs: FileSystem) returns (err: Option<Error>)
    requires a.Valid() && fs.IsDir(dir)
    modifies a.Repr(), fs
    ensures a.Valid()
    ensures var (e, outs) := Attempt(a.Model(), a.Loaded(), q, dir, options);
      err == e && fs.outputs == old(fs.outputs) + outs
    ensures fs.dirs == old(fs.dirs)
  {
    match a
    case NameAdapter(r) => err := r.Plot(q, dir, "png", true, options, fs);
    case Fall3dAdapter(r) => err := r.Plot(q, dir, "png", true, options, fs);
    case HysplitAdapter(r) => err := r.Plot(q, dir, "png", true, options, fs);
  }

  /** Settles the output directory and creates it when it is missing. */
  method PrepareOutputDir(results: seq<Path>, outputDir: Option<Path>, fs: FileSystem) returns (r: Result<Path>)
    modifies fs
    ensures match Prepared(results, outputDir, old(fs.dirs))
      case Err(e) => r == Err(e) && fs.dirs == old(fs.dirs)
      case Ok((d, made)) => r == Ok(d) && fs.dirs == made
    ensures fs.outputs == old(fs.outputs)
  {
    var dir := OutputDirFor(results, outputDir);
    if dir.Err? {
      return Err(dir.error);
    }
    var d := dir.value;
    if !fs.IsDir(d) {
      var err := fs.MakeDir(d);
      if err.Some? {
        return Err(err.value);
      }
    }
    return Ok(d);
  }

  /** The outcomes are those of the adapter's plot calls, one per quantity. */
  predicate Produces(adapter: Adapter, dir: Path, options: PlotOptions, outcomes: seq<Outcome>) {
    && |outcomes| == |Quantities|
    && forall j {:trigger Attempt(adapter.Model(), adapter.Loaded(), Quantities[j], dir, options)} ::
         0 <= j < |Quantities| ==> outcomes[j] == Attempt(adapter.Model(), adapter.Loaded(), Quantities[j], dir, options)
  }

  lemma OutcomesProduced(adapter: Adapter, dir: Path, options: PlotOptions)
    ensures Produces(adapter, dir, options, Outcomes(adapter.Model(), adapter.Loaded(), dir, options))
  {
  }

  /** The plotting loop: each quantity in turn, until an error the loop does
      not catch. */
  method PlotAll(adapter: Adapter, dir: Path, options: PlotOptions, fs: FileSystem, ghost outcomes: seq<Outcome>)
    returns (err: Option<Error>)
    requires adapter.Valid() && fs.IsDir(dir) && Produces(adapter, dir, options, outcomes)
    modifies adapter.Repr(), fs
    ensures err == Attempts(outcomes).0 && fs.outputs == old(fs.outputs) + Attempts(outcomes).1
    ensures fs.dirs == old(fs.dirs)
  {
    ghost var start := fs.outputs;
    ghost var done: seq<Output> := [];
    AttemptsFrom(outcomes);
    var i := 0;
    while i < |Quantities|
      invariant i <= |Quantities|
      invariant adapter.Valid() && fs.dirs == old(fs.dirs)
      invariant fs.outputs == start + done
      invariant Attempts(outcomes) == (Attempts(outcomes[i..]).0, done + Attempts(outcomes[i..]).1)
    {
      var e;
      e, done := PlotTurn(adapter, i, dir, options, fs, outcomes, start, done);
      if Escapes(e) {
        return e;
      }
      i := i + 1;
    }
    assert outcomes[i..] == [];
    err := None;
  }

  /** The whole run is still ahead before the first call. */
  lemma AttemptsFrom(outcomes: seq<Outcome>)
    ensures Attempts(outcomes) == (Attempts(outcomes[0..]).0, [] + Attempts(outcomes[0..]).1)
  {
    assert outcomes[0..] == outcomes && [] + Attempts(outcomes).1 == Attempts(outcomes).1;
  }

  /** The i-th call of the plotting loop: the outputs drawn so far grow by
      what it draws, and the rest of the run is left to the calls after it
      unless it raises an error the loop lets through. */
  method PlotTurn(adapter: Adapter, i: nat, dir: Path, options: PlotOptions, fs: FileSystem,
                  ghost outcomes: seq<Outcome>, ghost start: seq<Output>, ghost done: seq<Output>)
    returns (e: Option<Error>, ghost done': seq<Output>)
    requires i < |Quantities| && Produces(adapter, dir, options, outcomes)
    requires adapter.Valid() && fs.IsDir(dir) && fs.outputs == start + done
    requires Attempts(outcomes) == (Attempts(outcomes[i..]).0, done + Attempts(outcomes[i..]).1)
    modifies adapter.Repr(), fs
    ensures adapter.Valid() && fs.dirs == old(fs.dirs) && fs.outputs == start + done'
    ensures Escapes(e) ==> Attempts(outcomes) == (e, done')
    ensures !Escapes(e) ==> Attempts(outcomes) == (Attempts(outcomes[i + 1..]).0, done' + Attempts(outcomes[i + 1..]).1)
  {
    e := PlotCall(adapter, i, dir, options, fs, outcomes);
    done' := PlotStep(outcomes, i, start, done, fs.outputs);
  }

  /** The i-th plot call gives the i-th outcome. */
  method PlotCall(adapter: Adapter, i: nat, dir: Path, options: PlotOptions, fs: FileSystem, ghost outcomes: seq<Outcome>)
    returns (e: Option<Error>)
    requires i < |Quantities| && Produces(adapter, dir, options, outcomes)
    requires adapter.Valid() && fs.IsDir(dir)
    modifies adapter.Repr(), fs
    ensures adapter.Valid() && fs.dirs == old(fs.dirs)
    ensures e == outcomes[i].0 && fs.outputs == old(fs.outputs) + outcomes[i].1
  {
    e := PlotWith(adapter, Quantities[i], dir, options, fs);
  }

  /** plot_results, carried out on the file system. */
  method PlotResults(results: seq<Path>, modelType: string, limits: Option<seq<real>>, vaacColours: bool,
                     outputDir: Option<Path>, store: Store, fs: FileSystem) returns (err: Option<Error>)
    modifies fs
    ensures var (e, ds, outs) := Run(results, modelType, limits, vaacColours, outputDir, old(fs.dirs), store);
      err == e && fs.dirs == ds && fs.outputs == old(fs.outputs) + outs
  {
    var dir := PrepareOutputDir(results, outputDir, fs);
    if dir.Err? {
      return Some(dir.error);
    }
    err := PlotInto(dir.value, results, modelType, limits, vaacColours, store, fs);
  }

  /** The rest of plot_results once the output directory exists: the adapter
      is looked up and opened, then every quantity is plotted. */
  method PlotInto(d: Path, results: seq<Path>, modelType: string, limits: Option<seq<real>>, vaacColours: bool,
                  store: Store, fs: FileSystem) returns (err: Option<Error>)
    requires fs.IsDir(d)
    modifies fs
    ensures var (e, outs) := RunIn(d, results, modelType, limits, vaacColours, store);
      err == e && fs.outputs == old(fs.outputs) + outs
    ensures fs.dirs == old(fs.dirs)
  {
    var model := ModelTypeFor(modelType);
    if model.Err? {
      return Some(model.error);
    }
    var result := Open(model.value, SourceFor(results), store);
    if result.Err? {
      return Some(result.error);
    }
    var adapter := result.value;
    var options := ScriptOptions(limits, vaacColours);
    OutcomesProduced(adapter, d, options);
    err := PlotAll(adapter, d, options, fs, Outcomes(model.value, adapter.Loaded(), d, options));
  }

  /** One turn of the plotting loop, on the specification. */
  lemma PlotStep(outcomes: seq<Outcome>, i: nat, start: seq<Output>, done: seq<Output>, outputs: seq<Output>)
    returns (done': seq<Output>)
    requires i < |outcomes| && outputs == (start + done) + outcomes[i].1
    requires Attempts(outcomes) == (Attempts(outcomes[i..]).0, done + Attempts(outcomes[i..]).1)
    ensures outputs == start + done'
    ensures Escapes(outcomes[i].0) ==> Attempts(outcomes) == (outcomes[i].0, done')
    ensures !Escapes(outcomes[i].0) ==>
      Attempts(outcomes) == (Attempts(outcomes[i + 1..]).0, done' + Attempts(outcomes[i + 1..]).1)
  {
    done' := done + outcomes[i].1;
    assert outcomes[i..][1..] == outcomes[i + 1..];
    if !Escapes(outcomes[i].0) {
      var rest := Attempts(outcomes[i + 1..]).1;
      assert done + (outcomes[i].1 + rest) == done' + rest;
    }
  }
}
