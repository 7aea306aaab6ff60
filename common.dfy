/** Vocabulary shared by every module of the model: optional values and
    results, the exceptions that cross the
    modelled code, file-system paths, decoded timestamps and the three
    physical quantities. */
module Common {

  datatype Option<+T> = None | Some(value: T)

  datatype Result<+T> = Ok(value: T) | Err(error: Error)

  /** A file-system path given by its components; [] is the working directory. */
  type Path = seq<string>

  function Parent(p: Path): (q: Path)
    ensures p != [] ==> p == q + [p[|p| - 1]]
    ensures p == [] ==> q == []
  {
    if p == [] then [] else p[..|p| - 1]
  }

  /** The parent of dir/name is dir. */
  lemma ParentOfChild(dir: Path, name: string)
    ensures Parent(dir + [name]) == dir
  {
    assert (dir + [name])[..|dir|] == dir;
  }

  /** The parent of dir/sub/name is dir/sub. */
  lemma ParentOfGrandchild(dir: Path, sub: string, name: string)
    ensures Parent(dir + [sub, name]) == dir + [sub]
  {
    assert (dir + [sub, name])[..|dir| + 1] == dir + [sub];
  }

  /** Exceptions raised by the modelled code or by the libraries it calls. */
  datatype Error =
    | NoData(quantity: Quantity)     // AshModelResultError: the result has no such data
    | InvalidNetcdf(path: Path)      // AshModelResultError: netCDF4 cannot open the file
    | NotFound(path: Path)           // AshModelResultError: a NAME text file is missing
    | FileMissing(path: Path)        // OSError raised by iris.load
    | UnknownFormat(path: Path)      // ValueError raised by iris.load
    | ConcatenateError               // iris cannot join the selected cubes into one
    | CoordinateNotFound(name: string)
    | CoordinateCollapse             // iris cannot collapse a coordinate that spans no axis
    | NoneAttribute(attribute: string)  // AttributeError: attribute looked up on None
    | StrAttribute(attribute: string)   // AttributeError: Path method looked up on a str
    | IndexError
    | KeyError(key: string)
    | EmptyArray                     // ValueError: maximum of a zero-size array
    | TypeError                      // Path() applied to a list
    | FileExists(path: Path)         // FileExistsError from os.mkdir
    | FileNotFound(path: Path)       // FileNotFoundError: the parent directory is missing
    | UnboundLocal(name: string)     // UnboundLocalError: a variable never assigned
    | StopIteration
    | NotAMap                        // ValueError: pcolormesh draws only a two-dimensional cube
  {
    /** The package's own exception class, the one callers catch. */
    predicate IsAshModelResultError() {
      NoData? || InvalidNetcdf? || NotFound?
    }
  }

  /** The three fields every adapter can extract. */
  datatype Quantity = AirConcentration | TotalColumn | TotalDeposition {
    /** The value written to the 'quantity' attribute. */
    function Label(): string {
      match this
      case AirConcentration => "Air Concentration"
      case TotalColumn => "Total Column Mass"
      case TotalDeposition => "Total Deposition"
    }

    /** The value written to the 'CF Standard Name' attribute. */
    function CfStandardName(): string {
      match this
      case AirConcentration => "mass_concentration_of_volcanic_ash_in_air"
      case TotalColumn => "atmosphere_mass_content_of_volcanic_ash"
      case TotalDeposition => "surface_volcanic_ash_amount"
    }
  }

  /** A time point already decoded by the time coordinate's units (num2date). */
  datatype DateTime = DateTime(year: nat, month: nat, day: nat, hour: nat, minute: nat, second: nat) {
    /** Years are limited to four digits so that '%Y' is fixed-width. */
    predicate Valid() {
      1000 <= year <= 9999 && 1 <= month <= 12 && 1 <= day <= 31
      && hour < 24 && minute < 60 && second < 60
    }
  }

  /** The elements of `s` that satisfy `keep`, in their original order. */
  function Filter<T(==,!new)>(s: seq<T>, keep: T -> bool): (r: seq<T>)
    ensures |r| <= |s|
    ensures forall x :: x in r <==> x in s && keep(x)
  {
    if s == [] then []
    else (if keep(s[0]) then [s[0]] else []) + Filter(s[1..], keep)
  }

  /** Filter applied to a concatenation is the concatenation of the filters. */
  lemma {:induction false} FilterAppend<T(!new)>(a: seq<T>, b: seq<T>, keep: T -> bool)
    ensures Filter(a + b, keep) == Filter(a, keep) + Filter(b, keep)
  {
    if a == [] {
      assert a + b == b;
    } else {
      assert (a + b)[1..] == a[1..] + b;
      FilterAppend(a[1..], b, keep);
    }
  }

  /** Concatenation regroups freely. */
  lemma AppendAssociates<T>(a: seq<T>, b: seq<T>, c: seq<T>)
    ensures a + (b + c) == (a + b) + c
  {
  }
}
