/** The title draw_2d_cube gives the map of one level at one time: the run
    title and quantity with spaces replaced by '_', then the altitude and the
    time when the cube has them. The drawing itself is not modelled. */
module Plotting {
  import opened Common
  import opened Cubes
  import opened Text

  /** The altitude part: the first point of the 'altitude' coordinate,
      zero-padded to five characters, and '_'; nothing when iris finds no
      single coordinate of that name. */
  function AltitudeLabel(c: Cube): string {
    match c.CoordNamed("altitude")
    case None => ""
    case Some(z) => Format05d(z.points[0]) + "_"
  }

  /** The altitude part is empty exactly when there is no altitude, and
      otherwise gives back the altitude when read before its '_'. */
  lemma AltitudeLabelSpec(c: Cube)
    ensures AltitudeLabel(c) == "" <==> c.CoordNamed("altitude").None?
    ensures c.CoordNamed("altitude").Some? ==>
              var part := AltitudeLabel(c);
              && |part| >= 2 && part[|part| - 1] == '_'
              && ParseInt(part[..|part| - 1]) == Some(c.CoordNamed("altitude").value.points[0])
  {
    match c.CoordNamed("altitude")
    case None =>
    case Some(z) =>
      var digits := Format05d(z.points[0]);
      assert (digits + "_")[..|digits|] == digits;
      ParseFormat05d(z.points[0]);
  }

  /** The timestamp part: the first time point as '%Y%m%d%H%M%S'; nothing
      when the cube has no time coordinate. */
  function TimestampLabel(t: TimeCoord): Result<string> {
    match FirstTime(t)
    case Ok(d) => Ok(Strftime(d))
    case Err(CoordinateNotFound(_)) => Ok("")
    case Err(e) => Err(e)
  }

  /** No time coordinate leaves the part empty; a valid first time point is
      written in fourteen digits that read back as that time; a time axis
      with no point fails. */
  lemma TimestampLabelSpec(t: TimeCoord)
    ensures t.NoTime? ==> TimestampLabel(t) == Ok("")
    ensures t == TimeAxis([]) ==> TimestampLabel(t) == Err(IndexError)
    ensures FirstTime(t).Ok? && FirstTime(t).value.Valid() ==>
              && TimestampLabel(t).Ok? && |TimestampLabel(t).value| == 14
              && ParseTimestamp(TimestampLabel(t).value) == Some(FirstTime(t).value)
  {
    if FirstTime(t).Ok? && FirstTime(t).value.Valid() {
      StrftimeLength(FirstTime(t).value);
      ParseStrftime(FirstTime(t).value);
    }
  }

  /** The run title and quantity, spaces replaced, each followed by '_'. */
  function TitlePrefix(attributes: map<string, string>): string
    requires "Title" in attributes && "Quantity" in attributes
  {
    ReplaceSpaces(attributes["Title"]) + "_" + ReplaceSpaces(attributes["Quantity"]) + "_"
  }

  /** The title of draw_2d_cube. The time is looked up first; a missing
      'Title' or 'Quantity' attribute then fails on None.replace. */
  function DrawTitle(c: Cube): Result<string> {
    match TimestampLabel(c.time)
    case Err(e) => Err(e)
    case Ok(timestamp) =>
      if "Title" !in c.attributes || "Quantity" !in c.attributes then Err(NoneAttribute("replace"))
      else Ok(TitlePrefix(c.attributes) + AltitudeLabel(c) + timestamp)
  }

  /** The title fails only for a time axis with no point or a missing
      attribute. */
  lemma DrawTitleFailures(c: Cube)
    ensures DrawTitle(c).Err? <==>
              c.time == TimeAxis([]) || "Title" !in c.attributes || "Quantity" !in c.attributes
    ensures c.time == TimeAxis([]) ==> DrawTitle(c) == Err(IndexError)
    ensures c.time != TimeAxis([]) && ("Title" !in c.attributes || "Quantity" !in c.attributes) ==>
              DrawTitle(c) == Err(NoneAttribute("replace"))
  {
  }

  /** With neither coordinate the title ends in the '_' after the
      quantity; with a time but no altitude no '_' is doubled. */
  lemma TitleWithoutAltitude(c: Cube)
    requires "Title" in c.attributes && "Quantity" in c.attributes
    requires c.CoordNamed("altitude").None?
    ensures c.time.NoTime? ==> DrawTitle(c) == Ok(TitlePrefix(c.attributes))
    ensures c.time.ScalarTime? ==> DrawTitle(c) == Ok(TitlePrefix(c.attributes) + Strftime(c.time.at))
  {
    assert AltitudeLabel(c) == "";
    assert TitlePrefix(c.attributes) + "" == TitlePrefix(c.attributes);
  }

  /** The title ends with the timestamp, which reads back as the time of
      the map. */
  lemma TitleEndsWithTime(c: Cube)
    requires DrawTitle(c).Ok? && FirstTime(c.time).Ok? && FirstTime(c.time).value.Valid()
    ensures |DrawTitle(c).value| >= 14
    ensures ParseTimestamp(DrawTitle(c).value[|DrawTitle(c).value| - 14..]) == Some(FirstTime(c.time).value)
  {
    TimestampLabelSpec(c.time);
    var title := DrawTitle(c).value;
    var timestamp := TimestampLabel(c.time).value;
    var front := TitlePrefix(c.attributes) + AltitudeLabel(c);
    assert title == front + timestamp;
    assert title[|title| - 14..] == timestamp;
  }

  /** Maps of two levels of one field at one time get different titles. */
  lemma TitlesSeparateLevels(a: Cube, b: Cube)
    requires a.attributes == b.attributes && a.time == b.time
    requires DrawTitle(a).Ok? && DrawTitle(b).Ok?
    requires a.CoordNamed("altitude").Some? && b.CoordNamed("altitude").Some?
    requires a.CoordNamed("altitude").value.points[0] != b.CoordNamed("altitude").value.points[0]
    ensures DrawTitle(a) != DrawTitle(b)
  {
    AltitudeLabelSpec(a);
    AltitudeLabelSpec(b);
    var la, lb := AltitudeLabel(a), AltitudeLabel(b);
    assert la != lb by {
      assert la[..|la| - 1] != lb[..|lb| - 1];
    }
    var timestamp := TimestampLabel(a.time).value;
    SameEndsSameMiddle(TitlePrefix(a.attributes), la, lb, timestamp);
  }

  /** Maps of one field at two valid times get different titles. */
  lemma TitlesSeparateTimes(a: Cube, b: Cube)
    requires DrawTitle(a).Ok? && DrawTitle(b).Ok?
    requires FirstTime(a.time).Ok? && FirstTime(a.time).value.Valid()
    requires FirstTime(b.time).Ok? && FirstTime(b.time).value.Valid()
    requires FirstTime(a.time).value != FirstTime(b.time).value
    ensures DrawTitle(a) != DrawTitle(b)
  {
    TitleEndsWithTime(a);
    TitleEndsWithTime(b);
  }
}
