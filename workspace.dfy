/** The effects of plotting, as state: the directories that exist and the
    outputs produced, in order. Rendering itself (matplotlib, cartopy and the
    plot_3d_cube / plot_4d_cube helpers) is recorded as the call it receives. */
module Workspace {
  import opened Common
  import opened Cubes

  datatype Plotter = Plot3D | Plot4D

  /** Keyword arguments forwarded to the plotter. */
  datatype PlotOptions = PlotOptions(limits: Option<seq<real>>, vaacColours: Option<bool>, bboxInches: Option<string>)

  const NoOptions := PlotOptions(None, None, None)

  /** The scale of a level map: vmin and vmax when given. */
  datatype Scale = Scale(vmin: real, vmax: Option<real>)

  /** One bar of a bar chart: its height and the lengths of its error bar
      below and above (None where pandas has no value to subtract). */
  datatype Bar = Bar(height: real, below: Option<real>, above: Option<real>)

  datatype Output =
    /** A call of plot_3d_cube or plot_4d_cube, which saves the cube's images. */
    | CubePlots(plotter: Plotter, cube: Cube, outputDir: Path, fileExt: string,
                vmin: real, vmax: real, options: PlotOptions)
    /** One map saved with savefig: the cells drawn (None where masked). */
    | LevelImage(path: Path, cells: seq<seq<Option<real>>>, scale: Option<Scale>)
    /** A text file (an HTML summary page, a CSV table). */
    | TextFile(path: Path)
    /** A bar chart saved with savefig: the tick labels and the bars. */
    | BarChart(path: Path, labels: seq<string>, bars: seq<Bar>)

  class FileSystem {
    /** Directories that exist besides the working directory []. */
    var dirs: set<Path>
    /** Everything written or rendered, oldest first. */
    var outputs: seq<Output>

    constructor (dirs: set<Path>)
      ensures this.dirs == dirs && outputs == []
    {
      this.dirs := dirs;
      outputs := [];
    }

    /** os.path.isdir / Path.exists for directories. */
    predicate IsDir(p: Path)
      reads this
    {
      p == [] || p in dirs
    }

    /** os.mkdir: fails when the directory exists or its parent does not. */
    method MakeDir(p: Path) returns (err: Option<Error>)
      modifies this
      ensures old(IsDir(p)) ==> err == Some(FileExists(p))
      ensures !old(IsDir(p)) && !old(IsDir(Parent(p))) ==> err == Some(FileNotFound(p))
      ensures err.None? <==> !old(IsDir(p)) && old(IsDir(Parent(p)))
      ensures dirs == if err.None? then old(dirs) + {p} else old(dirs)
      ensures outputs == old(outputs)
    {
      if IsDir(p) {
        return Some(FileExists(p));
      }
      if !IsDir(Parent(p)) {
        return Some(FileNotFound(p));
      }
      dirs := dirs + {p};
      return None;
    }

    /** Path.mkdir(parents=True): creates every missing ancestor as well, and
        fails only when the directory itself exists. */
    method MakeDirs(p: Path) returns (err: Option<Error>)
      modifies this
      ensures err.None? <==> !old(IsDir(p))
      ensures err.Some? ==> err.value == FileExists(p) && dirs == old(dirs)
      ensures err.None? ==> dirs == old(dirs) + (set k | 1 <= k <= |p| :: p[..k])
      ensures outputs == old(outputs)
    {
      if IsDir(p) {
        return Some(FileExists(p));
      }
      dirs := dirs + (set k | 1 <= k <= |p| :: p[..k]);
      return None;
    }

    /** Records a plot call; the plotter writes its own files. */
    method Render(o: Output)
      modifies this
      ensures outputs == old(outputs) + [o] && dirs == old(dirs)
    {
      outputs := outputs + [o];
    }

    /** Writes a file: fails when its directory does not exist. */
    method Write(o: Output) returns (err: Option<Error>)
      requires !o.CubePlots?
      modifies this
      ensures err.None? <==> old(IsDir(Parent(o.path)))
      ensures err.Some? ==> err.value == FileNotFound(o.path)
      ensures outputs == if err.None? then old(outputs) + [o] else old(outputs)
      ensures dirs == old(dirs)
    {
      if !IsDir(Parent(o.path)) {
        return Some(FileNotFound(o.path));
      }
      outputs := outputs + [o];
      return None;
    }
  }
}
