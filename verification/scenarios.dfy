/**
 * Concrete runs of the model: the Origin example, with a
 * wgs84 configuration centred on (0, 0), and the header rule on a
 * three-line file.
 */
module Scenarios {
  import opened Wrappers
  import opened ConfigStore
  import opened Validation
  import opened Text
  import opened Processor

  /** format wgs84, centre "Origin" at (0, 0) with a 1000 m limit, columns 1, 2, 3, no header. */
  function OriginConfig(): ConfigData {
    map[
      "coordinates" := map["format" := VStr("wgs84")],
      "center location" := map[
        "name" := VStr("Origin"), "lat" := VReal(0.0), "lon" := VReal(0.0), "max distance" := VInt(1000)],
      "input" := map["name" := VInt(1), "x" := VInt(2), "y" := VInt(3), "header" := VBool(false)]]
  }

  function OriginSettings(): Settings {
    Settings(PassThrough, VStr("Origin"), VReal(0.0), VReal(0.0), VInt(1000),
             Column(1, false), Column(2, false), Column(3, false), false)
  }

  lemma OriginConfigValidates(c: Config)
    requires c.configfileRead == 1 && c.config == OriginConfig()
    ensures Validate(c) == Success(OriginSettings())
  {
    var cfg := OriginConfig();
    assert c.Get2("coordinates", "format") == Success(Some(VStr("wgs84")));
    assert VStr("wgs84") != VStr("utm");
    assert CoordinateFormat(c, VStr("wgs84")) == Success(PassThrough);
    assert Required(c, "center location", "name", CenterNameMissing) == Success(VStr("Origin"));
    assert Required(c, "center location", "lat", CenterLatMissing) == Success(VReal(0.0));
    assert Required(c, "center location", "lon", CenterLonMissing) == Success(VReal(0.0));
    assert Required(c, "center location", "max distance", MaxDistanceMissing) == Success(VInt(1000));
    assert ColumnSetting(c, "name", NameColumn) == Success(Column(1, false));
    assert ColumnSetting(c, "x", XColumn) == Success(Column(2, false));
    assert ColumnSetting(c, "y", YColumn) == Success(Column(3, false));
    assert Required(c, "input", "header", HeaderMissing) == Success(VBool(false));
  }

  lemma JoinThree(name: string, x: string, y: string)
    ensures Join([name, x, y], '\t') == name + "\t" + x + "\t" + y
  {
    assert [name, x, y][1..] == [x, y] && [x, y][1..] == [y];
    assert Join([x, y], '\t') == x + "\t" + y;
  }

  /** A line "name<TAB>x<TAB>y<newline>" splits into its three fields. */
  lemma ThreeFields(name: string, x: string, y: string)
    requires '\t' !in name && '\t' !in x && '\t' !in y
    requires |y| > 0 && y[|y| - 1] != '\n'
    ensures Split(StripNewlines(name + "\t" + x + "\t" + y + "\n"), '\t') == [name, x, y]
  {
    var line := name + "\t" + x + "\t" + y;
    assert line[|line| - 1] == y[|y| - 1];
    StripOneNewline(line);
    JoinThree(name, x, y);
    SplitJoin([name, x, y], '\t');
  }

  /** Under the Origin settings a three-field line is classified by its y/x distance from (0, 0). */
  lemma OriginRow(geo: Geodesy, name: string, x: string, y: string)
    requires '\t' !in name && '\t' !in x && '\t' !in y
    requires |y| > 0 && y[|y| - 1] != '\n'
    ensures RowOutcome(OriginSettings(), geo, name + "\t" + x + "\t" + y + "\n") ==
      Success(geo.distance(y, x, VReal(0.0), VReal(0.0)) > 1000.0)
  {
    var line := name + "\t" + x + "\t" + y + "\n";
    ThreeFields(name, x, y);
    RowUsesConfiguredColumns(OriginSettings(), geo, line);
  }

  lemma TwoRowVerdicts(s: Settings, geo: Geodesy, first: string, second: string, v1: bool, v2: bool)
    requires RowOutcome(s, geo, first) == Success(v1) && RowOutcome(s, geo, second) == Success(v2)
    ensures Verdicts(s, geo, [first, second]) == Success([v1, v2])
  {
    VerdictsSnoc(s, geo, [], first);
    VerdictsSnoc(s, geo, [first], second);
    assert [] + [first] == [first] && [first] + [second] == [first, second];
    assert [] + [v1] == [v1] && [v1] + [v2] == [v1, v2];
  }

  /** A two-line run without a header, in terms of its two rows' verdicts. */
  lemma TwoRowRun(s: Settings, geo: Geodesy, first: string, second: string, v1: bool, v2: bool)
    requires !s.header
    requires Verdicts(s, geo, [first, second]) == Success([v1, v2])
    ensures Run(s, geo, [first, second]) ==
      Success(Summary(2, 2, (if v1 then 0 else 1) + (if v2 then 0 else 1), (if v1 then 1 else 0) + (if v2 then 1 else 0)))
  {
    assert [] + [v1] == [v1] && [v1] + [v2] == [v1, v2];
    CountSnoc([], v1, true);
    CountSnoc([], v1, false);
    CountSnoc([v1], v2, true);
    CountSnoc([v1], v2, false);
  }

  /** Under the Origin settings, a point within 1000 m and one beyond it give one ok and one error row. */
  lemma OriginTwoRows(geo: Geodesy, first: string, second: string,
                      n1: string, x1: string, y1: string, n2: string, x2: string, y2: string)
    requires '\t' !in n1 && '\t' !in x1 && '\t' !in y1 && '\t' !in n2 && '\t' !in x2 && '\t' !in y2
    requires |y1| > 0 && y1[|y1| - 1] != '\n' && |y2| > 0 && y2[|y2| - 1] != '\n'
    requires first == n1 + "\t" + x1 + "\t" + y1 + "\n" && second == n2 + "\t" + x2 + "\t" + y2 + "\n"
    requires geo.distance(y1, x1, VReal(0.0), VReal(0.0)) <= 1000.0
    requires geo.distance(y2, x2, VReal(0.0), VReal(0.0)) > 1000.0
    ensures Run(OriginSettings(), geo, [first, second]) == Success(Summary(2, 2, 1, 1))
  {
    OriginRow(geo, n1, x1, y1);
    OriginRow(geo, n2, x2, y2);
    TwoRowVerdicts(OriginSettings(), geo, first, second, false, true);
    TwoRowRun(OriginSettings(), geo, first, second, false, true);
  }

  /**
   * The Origin example run over the settings `OriginConfigValidates`
   * derives: Pt1 at 556.6 m is within the 1000 m limit, Pt2 at 2226 m exceeds
   * it; two lines read and parsed, one ok and one error.
   */
  lemma OriginRun(geo: Geodesy, pt1: string, pt2: string)
    requires pt1 == "Pt1\t0.0\t0.005\n" && pt2 == "Pt2\t0.0\t0.02\n"
    requires geo.distance("0.005", "0.0", VReal(0.0), VReal(0.0)) == 556.6
    requires geo.distance("0.02", "0.0", VReal(0.0), VReal(0.0)) == 2226.0
    ensures Run(OriginSettings(), geo, [pt1, pt2]) == Success(Summary(2, 2, 1, 1))
  {
    assert "Pt1" + "\t" + "0.0" + "\t" + "0.005" + "\n" == pt1;
    assert "Pt2" + "\t" + "0.0" + "\t" + "0.02" + "\n" == pt2;
    OriginTwoRows(geo, pt1, pt2, "Pt1", "0.0", "0.005", "Pt2", "0.0", "0.02");
  }

  /** A three-line file with a header: three lines read, two parsed. */
  lemma HeaderedThreeLineFile(s: Settings, geo: Geodesy, lines: seq<string>)
    requires s.header && |lines| == 3
    requires Run(s, geo, lines).Success?
    ensures Run(s, geo, lines).value.linesRead == 3 && Run(s, geo, lines).value.linesParsed == 2
  {
  }
}
