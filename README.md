# ash-model-plotting, modelled in Dafny

ash-model-plotting normalises the output of three volcanic-ash dispersion
models so that a single set of plotting scripts can draw them:

- NAME: one NetCDF file, one NAME text file, or a list of text files.
- FALL3D and HYSPLIT: one NetCDF file each.

An adapter class for each model loads the file into iris cubes. It offers
three accessors: `air_concentration`, `total_column` and `total_deposition`.
Each accessor picks out the cubes that hold its field by their names, joins
them along time and tags them with a run title, a quantity and a CF standard
name. The HYSPLIT adapter has to compute two of the fields itself:

- the total column, as a sum over layers weighted by layer thickness;
- the deposition, as a running sum over time.

Three plot operations per adapter pass the field to the 3-D or 4-D plotter,
scaled from 0 to the data maximum. They then write an HTML summary page.

Four scripts sit on top of the adapters:

- `plot_ash_model_results` plots all three fields of one result.
- `plot_name_files`, in two versions, plots every level of every NAME file
  in a directory.
- `plotting.draw_2d_cube` builds the title of a single map.
- `analyse_refir_outputs` analyses twelve NAME runs of the REFIR study. It
  finds the largest area above 2 mg/m³ and the maximum concentration,
  writes a CSV table, and draws two bar charts with error bars.

The model has one module per source file:

| module | source file |
|---|---|
| `AshModelResult` | `ash_model_plotting/ash_model_results/ash_model_result.py` |
| `NameResults` | `ash_model_results/name.py` |
| `Fall3dResults` | `ash_model_results/fall3d.py` |
| `HysplitResults` | `ash_model_results/hysplit.py` |
| `LegacyAshModelResult` | `ash_model_plotting/ash_model_result.py` |
| `Plotting` | `plotting.py` |
| `PlotNameFiles` | both `plot_name_files.py` files |
| `PlotAshModelResults` | `plot_ash_model_results.py` |
| `AnalyseRefirOutputs` | `analyse_refir_outputs.py` |

Four modules hold what the package relies on from outside itself:

- `Common`: paths, errors, quantities and decoded times.
- `Text`: `'{n:05d}'`, `strftime('%Y%m%d%H%M%S')`, `str.replace`,
  `'_'.join(filter(None, ...))` and `PurePath.suffix`.
- `Cubes`: iris cubes as values, with extract, concatenate_cube, coordinate
  constraints and load.
- `Workspace`: the file system.

`Workspace.FileSystem` is a class. Its fields are the set of directories that
exist and the list of everything written or plotted, oldest first. Its
methods `MakeDir`, `MakeDirs`, `Write` and `Render` update those fields in
place.

The adapters are classes too. A class's fields are:

- the source it was opened on;
- the cubes it loaded;
- the `lru_cache` of each accessor;
- for FALL3D and HYSPLIT, the warnings raised so far.

Every accessor and plot operation is a method. Its `ensures` ties the
returned value to a specification function: `Field`, `AirField`,
`ColumnField`, `DepositionField` or `PlotResult`. It also ties the new cache
and warnings to the old ones. The loops of the scripts are methods with
`while` loops, proved against recursive specification functions:

- `LevelsRun` and `RunInTurn` for the two `plot_name_files` versions;
- `Attempts` for `plot_ash_model_results`;
- `Scan` and `FirstAtMax` for the REFIR analyses;
- `Collect` for the REFIR summary table.

The HYSPLIT weights are a four-dimensional array. A loop fills it with the
thickness of each layer, and the weighted sum is proved equal to the
column load.

## Model

| member | source | states |
|---|---|---|
| Common.Parent | ash_model_plotting/plot_ash_model_results.py:44 | `Path(first_file).parent`: a non-empty path is its parent followed by its last component; the parent of the empty path is empty |
| Common.ParentOfChild | ash_model_plotting/plot_name_files.py:65 | the parent of `os.path.join(dir, name)` is `dir` |
| Common.Filter | ash_model_plotting/ash_model_results/name.py:71 | the kept elements are exactly the elements of the input that pass the test, and there are no more of them than inputs |
| Common.FilterAppend | ash_model_plotting/ash_model_results/name.py:71 | filtering a concatenation is concatenating the filtered parts, so the order of the cubes is kept |
| Text.Format05d | ash_model_plotting/plot_name_files.py:63 | `'{n:05d}'`: a non-negative level gives only digits, a negative one `-` followed by digits |
| Text.Format05dLength | ash_model_plotting/plot_name_files.py:63 | levels from -9999 to 99999 give labels of exactly five characters |
| Text.ParseFormat05d | ash_model_plotting/plot_name_files.py:63 | round trip: reading a level label back gives the level, for every integer |
| Text.Format05dInjective | ash_model_plotting/plot_name_files.py:65 | two different levels never share a level directory name |
| Text.ZeroPad | ash_model_plotting/plot_name_files.py:63 | zero padding gives digits only, at least as many as the width and as the plain number |
| Text.ValueOfDigits | ash_model_plotting/plot_name_files.py:63 | round trip: the decimal digits of a number denote that number |
| Text.ZeroPadLength | ash_model_plotting/plot_name_files.py:63 | a number below 10^width fills the width exactly |
| Text.ParseNat | ash_model_plotting/plot_name_files.py:63 | a string reads as a number exactly when it is a non-empty run of digits, and the number is not negative |
| Text.ParseZeroPad | ash_model_plotting/plot_name_files.py:63 | round trip: a zero-padded number reads back as the number |
| Text.ParseFields | ash_model_plotting/plotting.py:45 | cutting a string at the widths gives, when it succeeds, one non-negative number per width |
| Text.FormatFieldsLength | ash_model_plotting/plotting.py:45 | fields that fit their widths take exactly the sum of the widths |
| Text.ParseFormatFields | ash_model_plotting/plotting.py:45 | round trip: fixed-width fields written one after another read back as the same values, when each fits its width |
| Text.ParseStrftime | ash_model_plotting/plotting.py:45 | round trip: `strftime('%Y%m%d%H%M%S')` of a valid time reads back as that time |
| Text.StrftimeLength | ash_model_plotting/plotting.py:45 | a valid time is written with exactly fourteen characters |
| Text.StrftimeInjective | ash_model_plotting/plotting.py:45 | distinct valid times never share a timestamp |
| Text.ReplaceSpaces | ash_model_plotting/plotting.py:52-53 | `str.replace(' ', '_')`: same length, no space left, every space becomes `_`, every other character is kept |
| Text.ReplaceSpacesAppend | ash_model_plotting/plotting.py:51-56 | replacing spaces in a concatenation replaces them in each part |
| Text.ReplaceSpacesNoSpace | ash_model_plotting/ash_model_results/ash_model_result.py:222 | text without spaces is unchanged |
| Text.NonEmptyParts | ash_model_plotting/ash_model_results/ash_model_result.py:219-222 | `filter(None, parts)`: the strings kept are exactly the present, non-empty parts |
| Text.LowerAscii | ash_model_plotting/ash_model_results/name.py:47 | `str.lower` on ASCII: the same length, capitals become the matching small letters, every other character is kept |
| Text.RFindDot | ash_model_plotting/ash_model_results/name.py:47 | the result is the index of the last `.`, or -1 when there is none |
| Text.Suffix | ash_model_plotting/ash_model_results/name.py:47 | `PurePath.suffix`: a non-empty suffix is the end of the name from its last dot, is shorter than the name, and holds no other dot; an empty suffix means the name's last dot, if any, is its first or its last character |
| Cubes.FirstTime | ash_model_plotting/plotting.py:43-45 | the first decoded time point: no time coordinate raises CoordinateNotFoundError, an empty time axis raises IndexError, otherwise the result is the scalar time or the first point of the axis |
| Cubes.Unit.TimesMetre | ash_model_plotting/ash_model_results/hysplit.py:97 | multiplying by `Unit('m')` adds one to the power of metres, keeps `unknown`, and turns `1` into `m` |
| Cubes.Cube.CoordNames | ash_model_plotting/ash_model_results/ash_model_result.py:85 | `{c.name() for c in cube.coords()}`: exactly the names of the coordinates |
| Cubes.Cube.DimStandardNames | ash_model_plotting/ash_model_result.py:51-54 | exactly the standard names of the dimension coordinates |
| Cubes.Cube.CoordNamed | ash_model_plotting/plotting.py:37 | `cube.coord(name)`: the one coordinate with that name; none when no coordinate or more than one has it |
| Cubes.CoordIndex | ash_model_plotting/ash_model_results/hysplit.py:108 | the position of the only coordinate with that name; none when there is no such coordinate or there are several |
| Cubes.MaxOf | ash_model_plotting/ash_model_results/ash_model_result.py:149 | the maximum is one of the values and no value exceeds it |
| Cubes.DataMax | ash_model_plotting/ash_model_results/ash_model_result.py:149 | `cube.data.max()`: fails with ValueError exactly when there are no cells, otherwise it is a cell that no cell exceeds |
| Cubes.ExtractCubes | ash_model_plotting/ash_model_results/name.py:71 | `CubeList.extract`: a cube is kept exactly when it is in the list and the constraint accepts it |
| Cubes.JoinData | ash_model_plotting/ash_model_results/name.py:72 | joining two data arrays along time keeps the number of axes and adds the time extents |
| Cubes.ConcatenateCube | ash_model_plotting/ash_model_results/name.py:72 | `concatenate_cube`: there is nothing to join exactly when the list is empty; a single cube comes back unchanged |
| Cubes.JoinedAgrees | ash_model_plotting/ash_model_results/name.py:72 | every joined cube agrees with the result on name, attributes, coordinates, units and number of axes |
| Cubes.KeptIndices | ash_model_plotting/ash_model_results/hysplit.py:51-52 | the indices of exactly the points that satisfy the constraint, in increasing order |
| Cubes.KeptNone | ash_model_plotting/ash_model_results/hysplit.py:132-133 | when no point satisfies the constraint, no index is kept |
| Cubes.PickLevels | ash_model_plotting/ash_model_results/hysplit.py:55 | restricting axis 1 to the kept levels: at every time, the j-th kept level is the idx[j]-th original level |
| Cubes.LevelSlab | ash_model_plotting/ash_model_results/hysplit.py:136 | restricting axis 1 to one level gives, at every time, that level's map |
| Cubes.DropAxisOne | ash_model_plotting/ash_model_results/hysplit.py:118-119 | after a collapse the collapsed coordinate becomes a scalar holding one point; the other axes from 2 onwards shift down by one, and nothing else changes |
| Cubes.KeptIndicesOf | ash_model_plotting/ash_model_results/hysplit.py:108 | the positions of exactly the coordinates with that name, in increasing order |
| Cubes.ConstrainLevels | ash_model_plotting/ash_model_results/hysplit.py:51-56 | `Constraint(coord_values=...)` on one cube. When every point of the coordinate matches, the cube is kept unchanged, axis and all (iris's `slice(None)`), even for a single layer. No match, or a scalar that does not match, drops the cube. Otherwise the cube is cut to exactly the matching levels, as CutLevels states. A surviving cube keeps its name, attributes, units and time, and the coordinate holds only matching points |
| Cubes.CutLevels | ash_model_plotting/ash_model_results/hysplit.py:55-56 | indexing axis 1 with the matching levels: the coordinate holds exactly the points of the listed levels, in order. One level leaves three axes with that level's map at every time and the coordinate scalar. Several levels keep four axes holding exactly those levels |
| Cubes.IrisLoad | ash_model_plotting/ash_model_results/name.py:51-55 | `iris.load(path)`: fails exactly for a missing file (OSError) or an unknown format, otherwise returns the file's cubes |
| Cubes.IrisLoadAll | ash_model_plotting/ash_model_results/name.py:41-43 | `iris.load(list)`: succeeds exactly when every file loads, and then holds the cubes of every file, file by file, with no merge across files |
| Workspace.FileSystem.constructor | ash_model_plotting/analyse_refir_outputs.py:34 | a file system with the given directories and nothing written yet |
| Workspace.FileSystem.MakeDir | ash_model_plotting/plot_name_files.py:56-57 | `os.mkdir`: fails with FileExistsError on an existing directory and FileNotFoundError under a missing parent, and otherwise adds exactly that directory |
| Workspace.FileSystem.MakeDirs | ash_model_plotting/analyse_refir_outputs.py:37-38 | `mkdir(parents=True)`: fails only on an existing directory, otherwise adds the directory and every ancestor |
| Workspace.FileSystem.Render | ash_model_plotting/ash_model_results/ash_model_result.py:148-150 | a plotter call is appended to the outputs and the directories are unchanged |
| Workspace.FileSystem.Write | ash_model_plotting/ash_model_results/ash_model_result.py:223-224 | `write_text` or `savefig`: succeeds exactly when the file's directory exists, and then appends the file |
| Plotting.AltitudeLabel | ash_model_plotting/plotting.py:36-41 | the altitude part of a map title: the first altitude point written `05.0f` and followed by `_`, or nothing when iris finds no altitude coordinate; AltitudeLabelSpec states its properties |
| Plotting.AltitudeLabelSpec | ash_model_plotting/plotting.py:36-41 | the altitude part is empty exactly when there is no altitude coordinate; otherwise it ends in `_` and reads back as the first altitude point |
| Plotting.TimestampLabel | ash_model_plotting/plotting.py:43-48 | the timestamp part of a map title: the first time point as `%Y%m%d%H%M%S`, nothing without a time coordinate, IndexError for a time axis with no point; TimestampLabelSpec states its properties |
| Plotting.TimestampLabelSpec | ash_model_plotting/plotting.py:43-48 | no time coordinate leaves the timestamp empty; an empty time axis raises IndexError; a valid first time gives fourteen characters that read back as that time |
| Plotting.DrawTitle | ash_model_plotting/plotting.py:43-56 | the title `draw_2d_cube` gives a map: Title and Quantity with spaces replaced, then the altitude and timestamp parts; DrawTitleFailures and the lemmas after it state its failures and form |
| Plotting.DrawTitleFailures | ash_model_plotting/plotting.py:43-56 | the title fails exactly for an empty time axis (IndexError, raised first) or a missing Title or Quantity attribute (`None.replace`) |
| Plotting.TitleWithoutAltitude | ash_model_plotting/plotting.py:51-56 | without an altitude the title is the prefix, followed by the timestamp when there is a time |
| Plotting.TitleEndsWithTime | ash_model_plotting/plotting.py:51-56 | the last fourteen characters of the title read back as the time of the map |
| Plotting.TitlesSeparateLevels | ash_model_plotting/plotting.py:36-56 | maps of two different altitudes of one field at one time get different titles |
| Plotting.TitlesSeparateTimes | ash_model_plotting/plotting.py:43-56 | maps of one field at two different valid times get different titles |
| AshModelResult.HasZLevels | ash_model_plotting/ash_model_results/ash_model_result.py:79-87 | a cube has z-levels exactly when one of its coordinates has one of the four vertical-coordinate names |
| AshModelResult.ModelRunTitle | ash_model_plotting/ash_model_results/ash_model_result.py:89-105 | `Title` wins, then `TITLE`, and the title is `''` when neither is present; any non-empty title is one of the attribute values |
| AshModelResult.Tag | ash_model_plotting/ash_model_results/name.py:73-76 | only the attributes change: the three tag keys are added with the run title, the quantity's label and its CF standard name, and every other attribute keeps its value |
| AshModelResult.RetagReplaces | ash_model_plotting/ash_model_results/name.py:73-76 | tagging twice is the same as tagging once with the second quantity |
| AshModelResult.TagKeepsTitle | ash_model_plotting/ash_model_results/name.py:73 | tagging leaves the run title unchanged |
| AshModelResult.Select | ash_model_plotting/ash_model_results/name.py:70-80 | the only error an accessor lets escape is a failed concatenation |
| AshModelResult.SelectSpec | ash_model_plotting/ash_model_results/name.py:64-80 | the accessor returns None exactly when the constraint accepts no cube; what it returns has an accepted name, z-levels when they are required, and the quantity's tags; a single accepted cube is returned tagged |
| AshModelResult.AccessorFound | ash_model_plotting/ash_model_results/name.py:64-80 | an accessor that selects by a set of names, requiring z-levels for air concentration only, finds a field with one of those names (and z-levels, for air concentration), and returns None exactly when no cube qualifies |
| AshModelResult.LoadFromNetcdf | ash_model_plotting/ash_model_results/ash_model_result.py:107-120 | a file the netCDF4 driver cannot open raises AshModelResultError; any other file gives its cubes |
| AshModelResult.LoadNetcdfSource | ash_model_plotting/ash_model_results/fall3d.py:36-42 | a list of paths raises TypeError in `Path(...)`; one path is loaded as NetCDF, with the errors above |
| AshModelResult.PlotterFor | ash_model_plotting/ash_model_results/ash_model_result.py:143-146 | plot_4d_cube is used exactly for air concentration whose data does not have three axes |
| AshModelResult.PlotKwargs | ash_model_plotting/ash_model_results/ash_model_result.py:136 | `kwargs.update(vaac_colours=...)` happens only for air concentration; limits and bbox_inches are passed through unchanged |
| AshModelResult.SummaryName | ash_model_plotting/ash_model_results/ash_model_result.py:219-222 | the summary page name; SummaryNameForm and SummaryNameShape state its form |
| AshModelResult.SummaryNameForm | ash_model_plotting/ash_model_results/ash_model_result.py:219-222 | the page name is the run title and the quantity, each followed by `_` when present and non-empty, then `summary.html`, with spaces replaced |
| AshModelResult.PresentPart | ash_model_plotting/ash_model_results/ash_model_result.py:219-221 | a part contributes one string exactly when it is present and non-empty |
| AshModelResult.NonEmptyPartsCons | ash_model_plotting/ash_model_results/ash_model_result.py:219-222 | filtering the parts one at a time keeps them in order |
| AshModelResult.JoinAfterPart | ash_model_plotting/ash_model_results/ash_model_result.py:219 | joining with `_` after a kept part writes the part followed by `_` |
| AshModelResult.SummaryNameShape | ash_model_plotting/ash_model_results/ash_model_result.py:219-222 | the page name ends in `summary.html` and holds no space |
| AshModelResult.SummarySuffixKept | ash_model_plotting/ash_model_results/ash_model_result.py:222 | `summary.html` survives the space replacement |
| AshModelResult.PlotResult | ash_model_plotting/ash_model_results/ash_model_result.py:122-205 | an escaping accessor error comes out unchanged; no field raises AshModelResultError; empty data raises ValueError. Otherwise one plotter call is made, with vmin 0, vmax the data maximum, the chosen plotter and keyword arguments. The summary page follows exactly when html is set and the directory exists; writing into a missing directory raises FileNotFoundError |
| AshModelResult.PlotQuantity | ash_model_plotting/ash_model_results/ash_model_result.py:122-205 | carrying a plot operation out on the file system appends exactly the outputs of PlotResult, returns its error and creates no directory |
| AshModelResult.PlotCube | ash_model_plotting/ash_model_results/ash_model_result.py:143-153 | the same, for a field that was found |
| NameResults.LoadCubes | ash_model_plotting/ash_model_results/name.py:35-55 | `_load_cubes` as intended, with the source made a Path as ash_model_plotting/ash_model_results/fall3d.py:41 does: a list is loaded with `iris.load(list)`; a `.nc` path in any letter case is loaded as NetCDF, and one netCDF4 cannot open raises AshModelResultError whether given as a str or a Path; a missing text file raises AshModelResultError; a file in an unknown format raises |
| NameResults.LoadCubesAsWritten | ash_model_plotting/ash_model_results/name.py:35-55 | `_load_cubes` as written: a `.nc` source given as a str that netCDF4 cannot open raises the AttributeError of `str.absolute()` (ash_model_plotting/ash_model_results/ash_model_result.py:116), which is not an AshModelResultError; as a Path it raises AshModelResultError; the other cases are those of LoadCubes |
| NameResults.StrNetcdfSourceFails | ash_model_plotting/ash_model_results/name.py:46 | `NameAshModelResult('missing.nc')` raises AttributeError as written, while the corrected loader raises AshModelResultError for the same path |
| NameResults.AsWrittenDiffersOnlyForStrNetcdf | ash_model_plotting/ash_model_results/name.py:46-49 | the two loaders differ exactly for a str `.nc` source netCDF4 cannot open; the corrected one does not depend on whether the path is a str or a Path |
| NameResults.UpperCaseSuffixIsNetcdf | ash_model_plotting/ash_model_results/name.py:47 | a `.NC` file is loaded as NetCDF |
| NameResults.Field | ash_model_plotting/ash_model_results/name.py:57-125 | the value each NAME accessor computes; FieldFound states its properties and NameAshModelResult.Fetch returns it |
| NameResults.FieldFound | ash_model_plotting/ash_model_results/name.py:57-125 | air concentration, once found, is `VOLCANIC_ASH_AIR_CONCENTRATION` with z-levels. Total column is `VOLCANIC_ASH_DOSAGE` and total deposition is `VOLCANIC_ASH_TOTAL_DEPOSITION`. The accessor returns None exactly when no cube qualifies |
| NameResults.GroundFieldNotAirConcentration | ash_model_plotting/ash_model_results/name.py:68-71 | a cube named like air concentration but with no vertical coordinate is not air concentration |
| NameResults.NameAshModelResult.constructor | ash_model_plotting/ash_model_results/ash_model_result.py:32-34 | an adapter holds the source exactly as given and the cubes loaded from it, with nothing cached yet |
| NameResults.NameAshModelResult.Open | ash_model_plotting/ash_model_results/name.py:35-55 | the constructor fails exactly when loading fails, with the same error; otherwise it keeps the source as given, with the loaded cubes and an empty cache |
| NameResults.NameAshModelResult.Fetch | ash_model_plotting/ash_model_results/name.py:57-125 | each accessor returns the value Field specifies; lru_cache keeps the first value it returns, but not an exception |
| NameResults.NameAshModelResult.Plot | ash_model_plotting/ash_model_results/ash_model_result.py:122-205 | each plot operation produces what PlotResult specifies for the NAME field, and the cache only grows |
| Fall3dResults.Field | ash_model_plotting/ash_model_results/fall3d.py:44-121 | the value each FALL3D accessor computes; FieldFound states its properties and Fall3DAshModelResult.Fetch returns it |
| Fall3dResults.FieldFound | ash_model_plotting/ash_model_results/fall3d.py:44-121 | air concentration, once found, is `tephra_concentration on z-cut planes` or `CON`, with z-levels. Total column is `tephra_column mass load` and total deposition is `tephra_ground mass load`. The accessor returns None exactly when no cube qualifies |
| Fall3dResults.WarningsFor | ash_model_plotting/ash_model_results/fall3d.py:65-70 | the grains warning is raised exactly when air concentration is found in `gr/m3`, and no other warning is raised |
| Fall3dResults.Fall3DAshModelResult.constructor | ash_model_plotting/ash_model_results/ash_model_result.py:32-34 | an adapter holds its file and the cubes loaded from it, with nothing cached and no warning yet |
| Fall3dResults.Fall3DAshModelResult.Open | ash_model_plotting/ash_model_results/fall3d.py:36-42 | the constructor fails exactly when the file is not one openable NetCDF file; otherwise it holds that file's cubes, an empty cache and no warnings |
| Fall3dResults.Fall3DAshModelResult.Fetch | ash_model_plotting/ash_model_results/fall3d.py:44-121 | each accessor returns the value Field specifies; a cached call raises no new warning; a first call raises WarningsFor and caches anything but an exception |
| Fall3dResults.Fall3DAshModelResult.Remember | ash_model_plotting/ash_model_results/fall3d.py:45 | lru_cache stores a value and never an exception |
| Fall3dResults.Fall3DAshModelResult.Plot | ash_model_plotting/ash_model_results/ash_model_result.py:122-205 | each plot operation produces what PlotResult specifies for the FALL3D field, and the cache only grows; the units warning is raised as by Fetch, only when the field is not cached |
| HysplitResults.ExtractLayers | ash_model_plotting/ash_model_results/hysplit.py:54-55 | extraction keeps only cubes with one of the two HYSPLIT names, and no more cubes than were given |
| HysplitResults.ExtractLayersEmpty | ash_model_plotting/ash_model_results/hysplit.py:47-59 | nothing is extracted exactly when no cube of the field has a layer that satisfies the constraint |
| HysplitResults.ExtractedLayersKept | ash_model_plotting/ash_model_results/hysplit.py:51-55 | every extracted cube holds only layers that satisfy the constraint |
| HysplitResults.AirField | ash_model_plotting/ash_model_results/hysplit.py:39-74 | air_concentration: the layers above ground joined, tagged, renamed, in g/m3 when the file has no units; AirFieldFound and AirFieldShape state its properties |
| HysplitResults.AirFieldFound | ash_model_plotting/ash_model_results/hysplit.py:39-59 | air concentration is None exactly when no cube of the field has a layer above ground; a failed concatenation is the only error |
| HysplitResults.AirFieldShape | ash_model_plotting/ash_model_results/hysplit.py:61-74 | the field found is renamed, has units, holds only layers above ground, and is tagged as air concentration |
| HysplitResults.AirWarnings | ash_model_plotting/ash_model_results/hysplit.py:68-72 | the warning air_concentration raises when it supplies units; AirWarningsSpec states when |
| HysplitResults.AirWarningsSpec | ash_model_plotting/ash_model_results/hysplit.py:68-72 | the missing-units warning is raised exactly when the units are replaced, and then names g/m3 |
| HysplitResults.Thicknesses | ash_model_plotting/ash_model_results/hysplit.py:109-110 | one thickness per layer top |
| HysplitResults.ThicknessesSum | ash_model_plotting/ash_model_results/hysplit.py:109-110 | the thicknesses add up to the top of the highest layer |
| HysplitResults.WeightedSumOfConstant | ash_model_plotting/ash_model_results/hysplit.py:118-119 | weighting a constant column gives the constant times the sum of the weights |
| HysplitResults.Column | ash_model_plotting/ash_model_results/hysplit.py:118-119 | one value per level, down one column of the atmosphere |
| HysplitResults.ColumnLoad | ash_model_plotting/ash_model_results/hysplit.py:102-119 | at every time and cell, the total column is the sum over layers of concentration times thickness |
| HysplitResults.LevelWeights | ash_model_plotting/ash_model_results/hysplit.py:113-115 | the weights of one column, read off the array |
| HysplitResults.WeightedLevelSum | ash_model_plotting/ash_model_results/hysplit.py:118-119 | `collapsed(SUM, weights=...)`: at every time and cell, the sum of value times weight down the column |
| HysplitResults.MinOf | ash_model_plotting/ash_model_results/hysplit.py:118-119 | the smallest point: it is one of the points and no point is below it |
| HysplitResults.MaxOf | ash_model_plotting/ash_model_results/hysplit.py:118-119 | the largest point: it is one of the points and no point is above it |
| HysplitResults.Midpoint | ash_model_plotting/ash_model_results/hysplit.py:118-119 | the point of the collapsed coordinate lies between its smallest and largest point |
| HysplitResults.LayerWeights | ash_model_plotting/ash_model_results/hysplit.py:113-115 | `np.ones(shape)` scaled in place so that `weights[:, i, :, :]` holds the i-th thickness everywhere and later levels stay 1; it fails (IndexError) exactly when there are more thicknesses than axis 1 has levels |
| HysplitResults.WeightedLevelSumIsColumnLoad | ash_model_plotting/ash_model_results/hysplit.py:113-119 | the weighted collapse over those weights is the thickness-weighted column load |
| HysplitResults.TotalColumnOf | ash_model_plotting/ash_model_results/hysplit.py:102-119 | `_calculate_total_column`: IndexError from the weights loop, CoordinateCollapseError for a scalar layer coordinate, else the weighted sum over the layer axis; TotalColumnSpec states its properties and CalculateTotalColumn computes it in place |
| HysplitResults.CalculateTotalColumn | ash_model_plotting/ash_model_results/hysplit.py:102-119 | `_calculate_total_column` in source order, the weights array filled in place before the collapse, computes exactly TotalColumnOf |
| HysplitResults.UniformColumn | ash_model_plotting/ash_model_results/hysplit.py:102-119 | air of one concentration throughout gives a column load of that concentration times the height of the highest layer top |
| HysplitResults.TotalColumnSpec | ash_model_plotting/ash_model_results/hysplit.py:102-119 | no layer coordinate raises CoordinateNotFoundError; data with three axes, or a layer coordinate with more points than axis 1 has levels, raises IndexError; a scalar layer coordinate raises CoordinateCollapseError; the collapse succeeds exactly when the coordinate spans axis 1, and keeps name, attributes, units and time steps, leaves three axes, and turns the layer coordinate into one point within its range |
| HysplitResults.ColumnField | ash_model_plotting/ash_model_results/hysplit.py:76-100 | total_column from air concentration; ColumnFieldSpec states its properties |
| HysplitResults.ColumnFieldSpec | ash_model_plotting/ash_model_results/hysplit.py:76-100 | total_column is None without air concentration and passes a failure on; when found it is renamed, in air units times m, has three axes and is tagged as total column |
| HysplitResults.ColumnTags | ash_model_plotting/ash_model_results/hysplit.py:91-94 | the column carries the tags of the joined cube for the total column |
| HysplitResults.ColumnOfGramsPerCubicMetre | ash_model_plotting/ash_model_results/hysplit.py:68-72 | when air concentration is given g/m3, the total column is in g/m2 |
| HysplitResults.AddGrid2 | ash_model_plotting/ash_model_results/hysplit.py:148 | element-wise sum of two maps, with the shape of the first |
| HysplitResults.AddGrid3 | ash_model_plotting/ash_model_results/hysplit.py:148 | element-wise sum, map by map |
| HysplitResults.CumSum | ash_model_plotting/ash_model_results/hysplit.py:148 | `np.cumsum(axis=0)`: the same length; the first step is kept and each later step is the previous total plus that step |
| HysplitResults.AccumulateOverTime | ash_model_plotting/ash_model_results/hysplit.py:148 | the running sum keeps the number of axes and the number of time steps |
| HysplitResults.AccumulatedIsTotal | ash_model_plotting/ash_model_results/hysplit.py:147-148 | each accumulated cell holds everything deposited there up to that step |
| HysplitResults.AccumulationNonDecreasing | ash_model_plotting/ash_model_results/hysplit.py:147-148 | with non-negative deposits, an accumulated cell never decreases over time |
| HysplitResults.DepositionBase | ash_model_plotting/ash_model_results/hysplit.py:121-148 | total_deposition up to its units: the ground layer joined, tagged, renamed and accumulated over time; DepositionBaseSpec states its properties |
| HysplitResults.DepositionBaseSpec | ash_model_plotting/ash_model_results/hysplit.py:128-148 | deposition is None exactly when no cube of the field has a ground layer. When found, it is the ground layer renamed, tagged and accumulated over time, and its layer coordinate holds only 0 |
| HysplitResults.DepositionField | ash_model_plotting/ash_model_results/hysplit.py:150 | the units come from air concentration times m; without air concentration `None.units` raises AttributeError |
| HysplitResults.ColumnFromAir | ash_model_plotting/ash_model_results/hysplit.py:85-100 | total_column once air concentration is known computes exactly ColumnField |
| HysplitResults.NoGroundLayerNoDeposition | ash_model_plotting/ash_model_results/hysplit.py:128-140 | a file whose only field has layers above ground and none at ground has no deposition |
| HysplitResults.NoGroundLayerDropped | ash_model_plotting/ash_model_results/hysplit.py:132-136 | a cube whose layers are all above ground does not pass the ground-level constraint |
| HysplitResults.OneLayerAirKeepsAxis | ash_model_plotting/ash_model_results/hysplit.py:47-119 | a field with a single layer, above the ground, keeps its layer axis: air concentration keeps its four-axis data, goes to plot_4d_cube, and has a total column |
| HysplitResults.Field | ash_model_plotting/ash_model_results/hysplit.py:39-152 | the value each HYSPLIT accessor computes, which HysplitAshModelResult.Fetch returns |
| HysplitResults.HysplitAshModelResult.constructor | ash_model_plotting/ash_model_results/ash_model_result.py:32-34 | an adapter holds its file and the cubes loaded from it, with nothing cached and no warning yet |
| HysplitResults.HysplitAshModelResult.Open | ash_model_plotting/ash_model_results/hysplit.py:32-37 | the constructor fails exactly when the file is not one openable NetCDF file; otherwise it holds that file's cubes, an empty cache and no warnings |
| HysplitResults.HysplitAshModelResult.Remember | ash_model_plotting/ash_model_results/hysplit.py:40 | lru_cache stores a value and never an exception |
| HysplitResults.HysplitAshModelResult.FetchAir | ash_model_plotting/ash_model_results/hysplit.py:39-74 | air_concentration returns AirField; its warning is raised only on the first, uncached call |
| HysplitResults.HysplitAshModelResult.FetchColumn | ash_model_plotting/ash_model_results/hysplit.py:76-100 | total_column returns ColumnField of AirField. It caches itself and possibly air concentration, and nothing else. Air's warning is raised only if air was not cached before |
| HysplitResults.HysplitAshModelResult.WithAirUnits | ash_model_plotting/ash_model_results/hysplit.py:150 | reading air's units caches air concentration when it did not fail, and raises its warning only if air was not cached before |
| HysplitResults.HysplitAshModelResult.FetchDeposition | ash_model_plotting/ash_model_results/hysplit.py:121-152 | total_deposition returns DepositionField; air concentration is read, with its warning, only when a ground layer was found |
| HysplitResults.HysplitAshModelResult.Fetch | ash_model_plotting/ash_model_results/hysplit.py:39-152 | each accessor returns Field. The cache grows by at most that quantity and air concentration, and holds the quantity exactly when it did not fail. Air's warning is raised only when air is read for the first time |
| HysplitResults.HysplitAshModelResult.Plot | ash_model_plotting/ash_model_results/ash_model_result.py:122-205 | each plot operation produces what PlotResult specifies for the HYSPLIT field, and the cache only grows; the missing-units warning is raised as by Fetch, only when air concentration is read for the first time |
| LegacyAshModelResult.Field | ash_model_plotting/ash_model_result.py:41-95 | the only error a property lets escape is a failed concatenation |
| LegacyAshModelResult.Accepts | ash_model_plotting/ash_model_result.py:47-56 | the constraint of each property: the field's name, and an altitude axis for air concentration; FieldFound states that every cube returned meets it |
| LegacyAshModelResult.FieldFound | ash_model_plotting/ash_model_result.py:41-95 | a property returns None exactly when no cube qualifies; what it returns has the field's name, an altitude axis for air concentration, and the attributes of every qualifying cube |
| LegacyAshModelResult.ScalarAltitudeNotAirConcentration | ash_model_plotting/ash_model_result.py:51-54 | a field whose altitude is not a dimension coordinate is not air concentration |
| LegacyAshModelResult.HtmlName | ash_model_plotting/ash_model_result.py:184-185 | the page name exists exactly when both Title and Quantity are attributes; otherwise KeyError names the first one missing |
| LegacyAshModelResult.HtmlNameForm | ash_model_plotting/ash_model_result.py:184-185 | the name is the title, `_`, the quantity and `.html`, with spaces replaced and none left |
| LegacyAshModelResult.HtmlNamesSeparateQuantities | ash_model_plotting/ash_model_result.py:184-185 | under one title, two quantities share a page name exactly when they agree once spaces are replaced |
| LegacyAshModelResult.PlotterFor | ash_model_plotting/ash_model_result.py:114-116 | plot_4d_cube is used exactly for air concentration |
| LegacyAshModelResult.PlotResult | ash_model_plotting/ash_model_result.py:97-167 | as the newer plot operations, with the fixed plotter choice and the page name `{Title}_{Quantity}.html`, whose KeyError escapes when html is set |
| LegacyAshModelResult.LegacyAshModelResult.constructor | ash_model_plotting/ash_model_result.py:22-24 | the adapter holds its file and the cubes loaded from it |
| LegacyAshModelResult.LegacyAshModelResult.Open | ash_model_plotting/ash_model_result.py:22-39 | the constructor fails exactly when the file is not an openable NetCDF file, with AshModelResultError; otherwise it holds that file's cubes |
| LegacyAshModelResult.LegacyAshModelResult.WriteHtml | ash_model_plotting/ash_model_result.py:172-187 | the page name's KeyError escapes before writing; otherwise the page is written exactly when the directory exists |
| LegacyAshModelResult.LegacyAshModelResult.Plot | ash_model_plotting/ash_model_result.py:97-167 | each plot operation produces what PlotResult specifies |
| PlotNameFiles.MaskLevel | ash_model_plotting/plot_name_files.py:52 | `masked_less(data, 1e-8)` on the map of one level; MaskLevelSpec states what it hides and keeps |
| PlotNameFiles.MaskLevelSpec | ash_model_plotting/plot_name_files.py:52 | `masked_less(data, 1e-8)` keeps the shape, hides exactly the values below 1e-8, and keeps the others |
| PlotNameFiles.MaskedMax | ash_model_plotting/plot_name_files.py:86 | `cube.data.max()` of the masked data, masked itself when every value is; MaskedMaxSpec states that it is the largest kept value |
| PlotNameFiles.MaskedMaxSpec | ash_model_plotting/plot_name_files.py:86 | the maximum of the masked data is the largest value at or above 1e-8; it is masked exactly when every value is below |
| PlotNameFiles.LevelScale | ash_model_plotting/plot_name_files.py:86 | the colour scale of every map of a file: from 0 to the masked maximum in the packaged copy, none in the script copy; the maximum of an array with no cell raises ValueError |
| PlotNameFiles.LevelTitle | ash_model_plotting/plot_name_files.py:94-101 | the file name `plot_level` gives a map; LevelTitleForm, LevelTitleFailures, LevelTitleNoSpace and LevelTitleTime state its form and failures |
| PlotNameFiles.LevelTitleForm | ash_model_plotting/plot_name_files.py:95-101 | the file name is the map-title prefix, the five-character level, `_`, the timestamp and `.png` |
| PlotNameFiles.LevelTitleFailures | ash_model_plotting/plot_name_files.py:94-101 | no time coordinate raises first, then a missing Title or Quantity, then an empty time axis; these are the only failures |
| PlotNameFiles.LevelTitleNoSpace | ash_model_plotting/plot_name_files.py:95-101 | the file name holds no space |
| PlotNameFiles.LevelTitleTime | ash_model_plotting/plot_name_files.py:95-101 | the file name ends in `.png` just after a timestamp that reads back as the map's time |
| PlotNameFiles.DrawLevel | ash_model_plotting/plot_name_files.py:69-71 | the map of level i: `cube[i, :, :]` masked, on the file's scale, saved as `plots/<level>/<title>`; a level past axis 0 raises IndexError, before pcolormesh refuses four-axis data; LevelMapsAt ties each level to it |
| PlotNameFiles.LevelMapsFrom | ash_model_plotting/plot_name_files.py:61-73 | one outcome per remaining level |
| PlotNameFiles.LevelMaps | ash_model_plotting/plot_name_files.py:61-73 | one outcome per level |
| PlotNameFiles.LevelMapsAt | ash_model_plotting/plot_name_files.py:61-73 | the k-th outcome is the map of the k-th level, drawn from `cube[k, :, :]` |
| PlotNameFiles.LevelMapAt | ash_model_plotting/plot_name_files.py:61-73 | the same, from any starting level |
| PlotNameFiles.FirstFailure | ash_model_plotting/plot_name_files.py:61-73 | the first map that fails: every earlier one succeeds |
| PlotNameFiles.FirstFailureSkips | ash_model_plotting/plot_name_files.py:61-73 | searching from further on finds the same failure when the skipped maps succeed |
| PlotNameFiles.LevelNames | ash_model_plotting/plot_name_files.py:63 | one directory name per level |
| PlotNameFiles.LevelDirsInside | ash_model_plotting/plot_name_files.py:65 | every level directory sits directly in `plots/` |
| PlotNameFiles.LevelDirsStep | ash_model_plotting/plot_name_files.py:65-67 | one more level adds exactly its directory |
| PlotNameFiles.ImagePath | ash_model_plotting/plot_name_files.py:71 | the map of a level is saved as `plots/<level>/<file name>` |
| PlotNameFiles.OneImagePerLevel | ash_model_plotting/plot_name_files.py:61-73 | when no map fails there is exactly one image per level, and different levels get different paths |
| PlotNameFiles.ImagesApart | ash_model_plotting/plot_name_files.py:63-71 | maps of two different levels are saved under different paths |
| PlotNameFiles.ImagesStep | ash_model_plotting/plot_name_files.py:70-71 | one more successful map is saved after the earlier ones |
| PlotNameFiles.LevelsRun | ash_model_plotting/plot_name_files.py:61-73 | the loop over levels as a recursion: images until the first map that fails, then its error; LevelsRunStops states this |
| PlotNameFiles.LevelsRunStops | ash_model_plotting/plot_name_files.py:61-73 | the loop raises the error of the first map that fails and saves exactly the maps before it, in order |
| PlotNameFiles.LevelsRunImages | ash_model_plotting/plot_name_files.py:61-73 | the loop's error and images, from its first level |
| PlotNameFiles.MakeLevelDir | ash_model_plotting/plot_name_files.py:63-67 | after this step the level's directory exists, the directories grow by exactly that one, and nothing is written |
| PlotNameFiles.SaveMap | ash_model_plotting/plot_name_files.py:70-72 | the map is saved exactly when drawing it succeeds; otherwise its error is the first failure and nothing is written |
| PlotNameFiles.DrawLevels | ash_model_plotting/plot_name_files.py:60-73 | the loop over levels raises the first failure, saves exactly the maps before it, and creates the directories of the levels it reached |
| PlotNameFiles.UnreachableFails | ash_model_plotting/plot_name_files.py:55-57 | when neither `plots/` nor the output directory exists, `plot_levels` raises (a loading error or `os.mkdir`'s) and saves nothing |
| PlotNameFiles.SecondCube | ash_model_plotting/plot_name_files.py:47-49 | `cubes[1]` of `iris.load(source_file)`: the loading error, IndexError for fewer than two cubes, or the second cube |
| PlotNameFiles.LevelsOutcome | ash_model_plotting/plot_name_files.py:40-73 | what `plot_levels` raises and saves for one file, which PlotLevels is proved to produce; UnreachableFails and LevelsOutcomeUnderPlots state its properties |
| PlotNameFiles.LevelsOutcomeUnderPlots | ash_model_plotting/plot_name_files.py:55-71 | every map of a file is saved two levels below `<output>/plots` |
| PlotNameFiles.PlotLevels | ash_model_plotting/plot_name_files.py:40-73 | `plot_levels` returns and saves what LevelsOutcome specifies. It creates only `plots/` and level directories inside it, and none when loading fails or `plots/` cannot be made. With `scaled` false it is the older `plot_levels` of ash-model-plotting/plot_name_files.py:36-68 |
| PlotNameFiles.RunInTurn | ash_model_plotting/plot_name_files.py:34-37 | the files plotted in turn until one raises; RunInTurnError, RunInTurnStopsAt and RunInTurnCompletes state its properties |
| PlotNameFiles.RunInTurnError | ash_model_plotting/plot_name_files.py:34-37 | the run over files raises exactly when some file raises, and then raises the first such error |
| PlotNameFiles.RunInTurnPrefix | ash_model_plotting/plot_name_files.py:34-37 | past files that raise nothing, the run goes on with the rest |
| PlotNameFiles.RunInTurnStopsAt | ash_model_plotting/plot_name_files.py:34-37 | the first file that raises ends the run, with the outputs up to and including it |
| PlotNameFiles.RunInTurnCompletes | ash_model_plotting/plot_name_files.py:34-37 | when no file raises, every file is plotted |
| PlotNameFiles.FileSteps | ash_model_plotting/plot_name_files.py:34-37 | one outcome per file |
| PlotNameFiles.FileStepAt | ash_model_plotting/plot_name_files.py:37 | the i-th outcome is `plot_levels` of the i-th file |
| PlotNameFiles.PlotFileAt | ash_model_plotting/plot_name_files.py:37 | one pass of the loop over files: `plot_levels` on the i-th file raises its step's error and appends its step's outputs; an error-free step means the plot directory could be reached; the only directories it adds are `<output>/plots` and directories directly inside it |
| PlotNameFiles.Glob | ash_model_plotting/plot_name_files.py:34-35 | the files `glob` finds for `source_dir/prefix*`: directly inside the directory, named with the prefix, hidden names only for a prefix that starts with `.`; PlotNameFiles requires its file list to hold exactly these |
| PlotNameFiles.PlotFiles | ash_model_plotting/plot_name_files.py:34-37 | the loop over files raises and saves what RunInTurn specifies. The only directories it adds are `<output>/plots` and the level directories directly inside it |
| PlotNameFiles.PlotNameFiles | ash_model_plotting/plot_name_files.py:22-37 | the output directory defaults to the source directory; the files matched by `prefix*` are plotted in turn until one raises. The older version is ash-model-plotting/plot_name_files.py:21-33; the only directories it adds are `plots` in the output directory and the level directories inside it |
| PlotAshModelResults.ModelTypeFor | ash_model_plotting/plot_ash_model_results.py:20-24 | `MODEL_TYPES[key]` gives the adapter registered under that key; any other key raises KeyError |
| PlotAshModelResults.KeyLooksUp | ash_model_plotting/plot_ash_model_results.py:20-24 | round trip: every adapter is found under its own key |
| PlotAshModelResults.Open | ash_model_plotting/plot_ash_model_results.py:55 | constructing the adapter fails exactly when its loading fails, with that error; otherwise it holds what was loaded |
| PlotAshModelResults.Attempt | ash_model_plotting/plot_ash_model_results.py:60-65 | one `plot_<quantity>` call with the default extension and summary page; PlotWith ties the adapters' plot methods to it |
| PlotAshModelResults.Attempts | ash_model_plotting/plot_ash_model_results.py:59-67 | the only errors that escape the loop are those that are not AshModelResultError |
| PlotAshModelResults.AttemptsSplit | ash_model_plotting/plot_ash_model_results.py:59-67 | past calls whose errors are caught, the loop goes on with the rest, keeping what they drew |
| PlotAshModelResults.AttemptsAll | ash_model_plotting/plot_ash_model_results.py:59-67 | when no error escapes, every call is made and everything drawn is kept |
| PlotAshModelResults.AttemptsStop | ash_model_plotting/plot_ash_model_results.py:59-67 | the first error that escapes ends the loop, keeping what the calls up to it drew |
| PlotAshModelResults.DrawnAppend | ash_model_plotting/plot_ash_model_results.py:59-65 | one more call adds its outputs after the others |
| PlotAshModelResults.AttemptsSkip | ash_model_plotting/plot_ash_model_results.py:66-67 | a call that raises AshModelResultError and draws nothing is skipped |
| PlotAshModelResults.MissingAirSkipped | ash_model_plotting/plot_ash_model_results.py:59-67 | a result without air concentration still has its other quantities plotted |
| PlotAshModelResults.OutputDirFor | ash_model_plotting/plot_ash_model_results.py:42-46 | the given directory wins; otherwise the parent of the first result; no result and no directory raises IndexError |
| PlotAshModelResults.SourceFor | ash_model_plotting/plot_ash_model_results.py:53-54 | a single result is passed as one path, given as the str the command line supplied, and any other number as the list |
| PlotAshModelResults.NetcdfModelsTakeOneFile | ash_model_plotting/plot_ash_model_results.py:53-55 | FALL3D and HYSPLIT given any number of files but one raise TypeError |
| PlotAshModelResults.DirectoryBeforeModelType | ash_model_plotting/plot_ash_model_results.py:42-55 | the output directory is created before an unknown model type raises KeyError, and nothing is drawn |
| PlotAshModelResults.RunLeavesDirectory | ash_model_plotting/plot_ash_model_results.py:42-67 | a run leaves the output directory in place and adds at most that directory. Once the adapter has loaded, no AshModelResultError escapes |
| PlotAshModelResults.PlotWith | ash_model_plotting/plot_ash_model_results.py:62-65 | a plot call on the adapter's own class gives the outcome Attempt specifies |
| PlotAshModelResults.Prepared | ash_model_plotting/plot_ash_model_results.py:41-49 | the output directory settled and, when missing, made with `os.mkdir`; PrepareOutputDir computes it |
| PlotAshModelResults.PrepareOutputDir | ash_model_plotting/plot_ash_model_results.py:42-49 | the output directory is settled and, when missing, created with `os.mkdir`, with its errors |
| PlotAshModelResults.OutcomesProduced | ash_model_plotting/plot_ash_model_results.py:59 | the outcomes are the adapter's calls, one per quantity, in order |
| PlotAshModelResults.PlotAll | ash_model_plotting/plot_ash_model_results.py:59-67 | the loop returns the error that escapes and appends what Attempts specifies |
| PlotAshModelResults.PlotTurn | ash_model_plotting/plot_ash_model_results.py:60-67 | one turn of the loop keeps the loop invariant, or ends the loop with the error that escapes |
| PlotAshModelResults.PlotCall | ash_model_plotting/plot_ash_model_results.py:62-65 | the i-th call gives the i-th outcome |
| PlotAshModelResults.Run | ash_model_plotting/plot_ash_model_results.py:27-67 | `plot_results` as a whole; PlotResults computes it, DirectoryBeforeModelType and RunLeavesDirectory state its properties |
| PlotAshModelResults.PlotResults | ash_model_plotting/plot_ash_model_results.py:27-67 | `plot_results` ends with the error, directories and outputs Run specifies |
| PlotAshModelResults.RunIn | ash_model_plotting/plot_ash_model_results.py:51-67 | `plot_results` once its directory exists: the adapter opened, then the loop; PlotInto computes it |
| PlotAshModelResults.PlotInto | ash_model_plotting/plot_ash_model_results.py:53-67 | once the directory exists: the adapter is opened, then the loop runs, with the outcome RunIn specifies |
| PlotAshModelResults.PlotStep | ash_model_plotting/plot_ash_model_results.py:60-67 | one turn of the loop, on the specification |
| AnalyseRefirOutputs.PointIn | ash_model_plotting/analyse_refir_outputs.py:153 | `xy_slice.coord(name).points[0]`: a missing coordinate raises, and a point found is one of the coordinate's points |
| AnalyseRefirOutputs.TimeIn | ash_model_plotting/analyse_refir_outputs.py:154-155 | the decoded time of a slice: none without a time coordinate, otherwise the time of the slice's step |
| AnalyseRefirOutputs.AllCellsAppend | ash_model_plotting/analyse_refir_outputs.py:152 | the cells of two runs of slices are the cells of each, in order |
| AnalyseRefirOutputs.Slices | ash_model_plotting/analyse_refir_outputs.py:152 | `cube.slices(['latitude', 'longitude'])`; SlicesCoverData states that the slices partition the data in order |
| AnalyseRefirOutputs.Slices3Cover | ash_model_plotting/analyse_refir_outputs.py:152 | the slices of three-axis data cover its cells in order |
| AnalyseRefirOutputs.LevelSlicesCover | ash_model_plotting/analyse_refir_outputs.py:152 | the slices of one time step cover its cells in order |
| AnalyseRefirOutputs.Slices4Cover | ash_model_plotting/analyse_refir_outputs.py:152 | the slices of four-axis data cover its cells in order |
| AnalyseRefirOutputs.SlicesCoverData | ash_model_plotting/analyse_refir_outputs.py:152 | `cube.slices(['latitude', 'longitude'])` partitions the data: the slices' cells, in order, are exactly the cube's cells |
| AnalyseRefirOutputs.FirstSliceWith | ash_model_plotting/analyse_refir_outputs.py:180-185 | a value among the cells lies in some slice, and in a first one |
| AnalyseRefirOutputs.SliceCellsInAll | ash_model_plotting/analyse_refir_outputs.py:180 | every cell of a slice is a cell of the cube |
| AnalyseRefirOutputs.MaskedSum | ash_model_plotting/analyse_refir_outputs.py:157 | `cell_areas[xy_slice.data > threshold].sum()`; MaskedSumNone and MaskedSumAntitone state its properties |
| AnalyseRefirOutputs.MaskedSumNone | ash_model_plotting/analyse_refir_outputs.py:157 | no cell above the threshold gives no area |
| AnalyseRefirOutputs.MaskedSumAntitone | ash_model_plotting/analyse_refir_outputs.py:157 | with non-negative cell areas, the area is non-negative and never grows when the threshold rises |
| AnalyseRefirOutputs.AreaAbove | ash_model_plotting/analyse_refir_outputs.py:157 | a mask whose shape differs from the cell areas raises IndexError, and nothing else does |
| AnalyseRefirOutputs.AreaVisit | ash_model_plotting/analyse_refir_outputs.py:153-157 | a turn of the loop succeeds exactly when the slice has a flight level, a time and the shape of the cell areas; it reports that level and time |
| AnalyseRefirOutputs.Best | ash_model_plotting/analyse_refir_outputs.py:150-161 | the state of the loop of `advisory_area` after n slices; BestFails, BestFailureStays and BestIsFirstLargest state its properties |
| AnalyseRefirOutputs.BestFails | ash_model_plotting/analyse_refir_outputs.py:152-161 | the loop fails exactly when some slice fails, with the error of the first failing slice |
| AnalyseRefirOutputs.BestFailureStays | ash_model_plotting/analyse_refir_outputs.py:152-161 | once the loop has failed, later slices change nothing |
| AnalyseRefirOutputs.BestIsFirstLargest | ash_model_plotting/analyse_refir_outputs.py:150-161 | `max_area` bounds every slice's area. Nothing is kept exactly when no area is positive; otherwise the kept slice is the first with the largest area |
| AnalyseRefirOutputs.Scan | ash_model_plotting/analyse_refir_outputs.py:139-167 | what `advisory_area` returns; ScanIsFirstLargest and ScanFails state its properties and ScanSlices computes it with the loop |
| AnalyseRefirOutputs.ScanIsFirstLargest | ash_model_plotting/analyse_refir_outputs.py:150-167 | `advisory_area` reports the first slice with the largest positive area. When no area is positive, the unset `max_flight_level` raises UnboundLocalError |
| AnalyseRefirOutputs.ScanFails | ash_model_plotting/analyse_refir_outputs.py:152-157 | with a failing slice, the result is the error of the first one |
| AnalyseRefirOutputs.AdvisoryAreaOf | ash_model_plotting/analyse_refir_outputs.py:139-167 | no air concentration raises on `None.slices`; a cube with no slice raises StopIteration on `.next()`. Otherwise the cell areas of the first slice are computed and the slices scanned |
| AnalyseRefirOutputs.AdvisoryArea | ash_model_plotting/analyse_refir_outputs.py:139-167 | the method computes exactly AdvisoryAreaOf |
| AnalyseRefirOutputs.ScanSlices | ash_model_plotting/analyse_refir_outputs.py:150-161 | the loop, keeping the strictly largest area, computes exactly Scan |
| AnalyseRefirOutputs.SliceMax | ash_model_plotting/analyse_refir_outputs.py:184 | `xy_slice.data.max()`: an empty slice raises ValueError; otherwise it is a cell that no cell exceeds |
| AnalyseRefirOutputs.FirstAtMax | ash_model_plotting/analyse_refir_outputs.py:170-191 | what `max_concentration_data` returns for the cube's maximum; FirstAtMaxFinds and FirstAtMaxValue state its properties and SearchSlices computes it with the loop |
| AnalyseRefirOutputs.FirstAtMaxFinds | ash_model_plotting/analyse_refir_outputs.py:180-185 | the first slice whose maximum equals the cube's maximum is the one reported |
| AnalyseRefirOutputs.MaxConcentrationOf | ash_model_plotting/analyse_refir_outputs.py:170-191 | no air concentration raises on `None.data`, empty data raises ValueError; a reported value is the cube's maximum |
| AnalyseRefirOutputs.FirstAtMaxValue | ash_model_plotting/analyse_refir_outputs.py:184-189 | a reported value is the maximum searched for |
| AnalyseRefirOutputs.MaxConcentrationAtFirstHolder | ash_model_plotting/analyse_refir_outputs.py:170-191 | when every slice can be read, the maximum is reported with the flight level and time of the first slice that holds it |
| AnalyseRefirOutputs.MaxConcentrationData | ash_model_plotting/analyse_refir_outputs.py:170-191 | the method computes exactly MaxConcentrationOf |
| AnalyseRefirOutputs.SearchSlices | ash_model_plotting/analyse_refir_outputs.py:180-185 | the loop with its break computes exactly FirstAtMax |
| AnalyseRefirOutputs.RunKeys | ash_model_plotting/analyse_refir_outputs.py:44-46 | one key per experiment, model and run |
| AnalyseRefirOutputs.RunKeyAt | ash_model_plotting/analyse_refir_outputs.py:44-49 | the run at position (e, m, r) of the nested loops is `(EXPERIMENTS[e], MODELS[m], RUNS[r])` |
| AnalyseRefirOutputs.RunKeysListed | ash_model_plotting/analyse_refir_outputs.py:24-27 | the twelve runs, in the order the loops visit them |
| AnalyseRefirOutputs.RunDir | ash_model_plotting/analyse_refir_outputs.py:115 | the run directory lies three levels below the data directory |
| AnalyseRefirOutputs.RunRecord | ash_model_plotting/analyse_refir_outputs.py:108-136 | with the NAME adapter, a loading error escapes; a row carries its run's key and a positive advisory area |
| AnalyseRefirOutputs.AnalyseRun | ash_model_plotting/analyse_refir_outputs.py:118-136 | the method computes exactly RunRecord |
| AnalyseRefirOutputs.RunFiles | ash_model_plotting/analyse_refir_outputs.py:116 | `glob("Fields_grid88*.txt")`: exactly the entries of the run directory that exist and match the pattern |
| AnalyseRefirOutputs.Results | ash_model_plotting/analyse_refir_outputs.py:44-49 | one result per run |
| AnalyseRefirOutputs.ResultsAsWritten | ash_model_plotting/analyse_refir_outputs.py:44-49 | one result per run, as written |
| AnalyseRefirOutputs.Collect | ash_model_plotting/analyse_refir_outputs.py:43-49 | the rows `main` appends, one per run in turn, until the first exception; CollectRows and the lemmas after it state its properties |
| AnalyseRefirOutputs.CollectRows | ash_model_plotting/analyse_refir_outputs.py:43-49 | the table holds one row per run, each what its analysis returned; otherwise the first exception raised escapes |
| AnalyseRefirOutputs.CollectOkIff | ash_model_plotting/analyse_refir_outputs.py:43-49 | a table is produced exactly when every run can be analysed |
| AnalyseRefirOutputs.CollectNext | ash_model_plotting/analyse_refir_outputs.py:48-49 | one more run appends its row or raises its error |
| AnalyseRefirOutputs.CollectFailureStays | ash_model_plotting/analyse_refir_outputs.py:43-49 | once a run has failed, the later runs change nothing |
| AnalyseRefirOutputs.CollectPrefixFails | ash_model_plotting/analyse_refir_outputs.py:43-49 | a failure in a prefix is the failure of every longer prefix |
| AnalyseRefirOutputs.RunRecordAsWritten | ash_model_plotting/analyse_refir_outputs.py:119 | `analyse_run` as written: TypeError whatever the files; AsWrittenNeverTabulates states the consequence |
| AnalyseRefirOutputs.AsWrittenNeverTabulates | ash_model_plotting/analyse_refir_outputs.py:119 | as written, `main` raises TypeError for any data, because the abstract class cannot be instantiated |
| AnalyseRefirOutputs.CollectOkIffRuns | ash_model_plotting/analyse_refir_outputs.py:43-49 | when each result is that of its run, a table is produced exactly when every run succeeds |
| AnalyseRefirOutputs.CorrectedTabulatesIff | ash_model_plotting/analyse_refir_outputs.py:43-49 | with the NAME adapter, a table is produced exactly when every one of the twelve runs can be analysed |
| AnalyseRefirOutputs.CorrectedTabulatesEveryRun | ash_model_plotting/analyse_refir_outputs.py:43-53 | with the NAME adapter, the table has twelve rows, one per run in loop order, each with a positive advisory area |
| AnalyseRefirOutputs.ResultsTabulate | ash_model_plotting/analyse_refir_outputs.py:44-49 | the results are those of the runs, in loop order |
| AnalyseRefirOutputs.AnalyseRuns | ash_model_plotting/analyse_refir_outputs.py:43-49 | the three nested loops compute exactly Analysed |
| AnalyseRefirOutputs.AnalyseExperiments | ash_model_plotting/analyse_refir_outputs.py:44-49 | the loop over experiments collects the results in order |
| AnalyseRefirOutputs.AnalyseExperiment | ash_model_plotting/analyse_refir_outputs.py:45-49 | the loop over models extends the table by one experiment's runs |
| AnalyseRefirOutputs.AnalyseModel | ash_model_plotting/analyse_refir_outputs.py:46-49 | the loop over runs extends the table by one model's runs |
| AnalyseRefirOutputs.AnalyseRunAt | ash_model_plotting/analyse_refir_outputs.py:48-49 | one turn appends the run's row or raises its error |
| AnalyseRefirOutputs.AnalyseRunIn | ash_model_plotting/analyse_refir_outputs.py:108-119 | the method computes exactly `analyse_run` for one run |
| AnalyseRefirOutputs.AreaColumn | ash_model_plotting/analyse_refir_outputs.py:62 | one value per row, under the row's run key: the advisory area in square metres divided by 1e9 |
| AnalyseRefirOutputs.ConcentrationColumn | ash_model_plotting/analyse_refir_outputs.py:72 | one value per row, under the row's run key: the maximum concentration in g/m3 times 1e3 |
| AnalyseRefirOutputs.Lookup | ash_model_plotting/analyse_refir_outputs.py:84-85 | `df.xs(run)` for one model: none exactly when no row has the key |
| AnalyseRefirOutputs.LookupAt | ash_model_plotting/analyse_refir_outputs.py:84-85 | the first row with the key is the one looked up |
| AnalyseRefirOutputs.BarsFromTriple | ash_model_plotting/analyse_refir_outputs.py:83-91 | rows Av, Max and Min give one bar, from the Av row |
| AnalyseRefirOutputs.BarOfModel | ash_model_plotting/analyse_refir_outputs.py:83-86 | a model's bar is as tall as its Av value; its error bar reaches down to Min and up to Max |
| AnalyseRefirOutputs.TableColumnKeys | ash_model_plotting/analyse_refir_outputs.py:24-27 | the rows of a table column, model by model, each Av, Max, Min |
| AnalyseRefirOutputs.BarAt | ash_model_plotting/analyse_refir_outputs.py:83-86 | the bar of one `Av` row: its height, the offset down to `Min` and up to `Max` of the same experiment and model |
| AnalyseRefirOutputs.ErrorBars | ash_model_plotting/analyse_refir_outputs.py:81-96 | the bars `plot_bar_with_errors` draws, one per `Av` row; ErrorBarsOfAvRows and ErrorBarsOfTable state its properties |
| AnalyseRefirOutputs.ErrorBarsOfAvRows | ash_model_plotting/analyse_refir_outputs.py:83-91 | the bars of a table column are those of rows 0, 3, 6 and 9 |
| AnalyseRefirOutputs.ErrorBarsOfFourTriples | ash_model_plotting/analyse_refir_outputs.py:83-91 | twelve rows running Av, Max, Min four times give the bars of rows 0, 3, 6 and 9 |
| AnalyseRefirOutputs.ErrorBarsOfTable | ash_model_plotting/analyse_refir_outputs.py:81-96 | a table column gives four bars, one per model in the order of LABELS, each Av with its error bar down to Min and up to Max |
| AnalyseRefirOutputs.BarOfTableModel | ash_model_plotting/analyse_refir_outputs.py:83-86 | in a table column, each model's bar is built from its own Av, Max and Min rows |
| AnalyseRefirOutputs.TableColumnsOf | ash_model_plotting/analyse_refir_outputs.py:52-53 | a table with one row per run, in loop order, gives table columns |
| AnalyseRefirOutputs.ChartsOfAnalysis | ash_model_plotting/analyse_refir_outputs.py:43-78 | each chart main draws has four bars, one per model. Each bar is the model's Av value, with an error bar down to Min and up to Max |
| AnalyseRefirOutputs.Analyse | ash_model_plotting/analyse_refir_outputs.py:32-57 | `main`: a missing output directory is created with its ancestors, and the data directory is the default. An analysis error escapes before anything is written. Otherwise the CSV and the two charts are written, or FileNotFoundError is raised when the output directory is missing |
| AnalyseRefirOutputs.WriteResults | ash_model_plotting/analyse_refir_outputs.py:52-78 | the CSV and the two bar charts are written in order when the directory exists; otherwise the first write raises and nothing is written |

## Left out

- Drawing is not modelled: matplotlib, cartopy, colour bars and pixels.
  plot_3d_cube, plot_4d_cube and render_html are not part of this model. A
  plotter call is recorded with its cube, scale, plotter and keyword
  arguments, and the HTML page is recorded by its path only.
- iris, cf_units and netCDF4 are modelled only as far as the package uses
  them: names, coordinates, units, data as nested sequences of reals, and
  load/extract/concatenate/constrain/collapse. The internals of those
  libraries are not modelled.
- Time points arrive already decoded. `num2date` and calendars are not
  modelled, and years are limited to four digits so that `%Y` has a fixed
  width.
- Floating point is modelled as real arithmetic, with no rounding and no
  NaN. Altitude and layer points are integers, so `'{:05.0f}'` and
  `int(level)` are the same as formatting the integer.
- Cubes.IrisLoadAll: iris's merge across files is not modelled. The cubes
  of the files are listed one file after another. A NAME text file in the
  store must therefore already hold each field with its time axis (one point
  per file), so that ConcatenateCube joins the files along time, in the
  order they are listed rather than sorted by time.
- Cubes.ConstrainLevels: when only some points of a layer coordinate
  match, the coordinate is cut only when it spans axis 1 of four-axis data,
  the layout of the HYSPLIT files. A cube whose coordinate lies on another
  axis is then dropped.
- HysplitResults.TotalColumnOf: a layer coordinate on axis 0, 2 or 3 of
  four-axis data, with no more points than axis 1 has levels, is reported
  as CoordinateCollapse. The source weights axis 1 by index whatever axis
  the coordinate is on and then sums over the coordinate's own axis
  (ash_model_plotting/ash_model_results/hysplit.py:113-119); the model does
  not compute that wrongly weighted sum. The IndexError the weights loop
  raises for a longer coordinate is modelled. Data with no time step is
  taken to have as many levels on axis 1 as the coordinate has points.
- Cubes.Data: data has three or four axes, never two. So the model cannot
  express a NAME file with one level and one time step, whose
  `cube[idx, :, :]` in ash_model_plotting/plot_name_files.py:86 raises
  IndexError. Nor can it express a two-axis air-concentration cube, which
  ash_model_plotting/ash_model_results/ash_model_result.py:143-146 sends
  to plot_4d_cube.
- Cubes.ConcatenateCube: joins cubes in list order. Its merge rules are
  simplified: cubes that differ in anything but their time axis are a
  conflict.
- `area_weights` is a parameter of the REFIR analyses (`Inputs.areaWeights`),
  because the spherical geometry it computes is outside the package.
  Latitude and longitude are taken to be the last two axes.
- The order in which `glob` lists files is an input. For REFIR it is the
  directory listing `Inputs.listing`; for `plot_name_files` it is the
  `files` sequence, which must list exactly the matching files.
- PlotNameFiles.PlotNameFiles: the glob pattern is modelled by name prefix.
  `absolute()` is not modelled.
- AnalyseRefirOutputs.Lookup: `df.xs` is modelled as a lookup by key. A
  missing Min or Max row gives a bar without that error bar. pandas index
  alignment for indices that differ is not modelled.
- Logging, printing, warnings text and the absolute paths in error messages
  are not modelled. Only the kind of each error and the path it concerns
  are kept, and the AttributeError raised when such a message is built from
  a str (see Findings).
- ash_model_plotting/__init__.py:11-16 imports HysplitAshModelResult from
  `ash_model_results`, whose `__init__.py` (lines 3-8) does not export it,
  so importing the package raises ImportError. The model takes the adapter
  as exported, as ash_model_plotting/plot_ash_model_results.py:20-24 expects.
- The argparse `main` functions are not modelled, being command-line
  plumbing. Neither is the `__main__` block of the newer `plot_name_files`,
  which passes `Path(None)` and fails when no output directory is given.
- `lru_cache` is modelled as one cache per instance. Python's cache on the
  class-level function also spans instances, and that is not modelled.
- The multiprocessing experiments, the example scripts and the `__repr__`
  methods are not modelled, being outside the core.

## Findings

| source | as written | input that shows it | evidently intended | confidence | as-written member | corrected member |
|---|---|---|---|---|---|---|
| ash_model_plotting/analyse_refir_outputs.py:119 | `analyse_run` instantiates `AshModelResult`, the abstract base class of ash_model_plotting/ash_model_results/ash_model_result.py:22-77, which raises TypeError | any data directory | the NAME adapter `NameAshModelResult`, which test/conftest.py:33-37 uses on the REFIR files | not executed | AnalyseRefirOutputs.AsWrittenNeverTabulates | AnalyseRefirOutputs.CorrectedTabulatesEveryRun |
| ash_model_plotting/ash_model_results/name.py:46 | `source_data = Path(self.source_data)` binds the Path to a local name, so `_load_from_netcdf` still holds the str; when netCDF4 cannot open the file, ash_model_plotting/ash_model_results/ash_model_result.py:116 calls `.absolute()` on the str and raises AttributeError instead of AshModelResultError | `NameAshModelResult('missing.nc')`, which `plot_results` builds from a single command-line path | `self.source_data = Path(self.source_data)`, as ash_model_plotting/ash_model_results/fall3d.py:41 and hysplit.py:36 do, so the error is AshModelResultError | not executed | NameResults.StrNetcdfSourceFails | NameResults.LoadCubes |
