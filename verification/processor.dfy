/**
 * The per-row work of convert.py (`transform_utm_into_lat_lon`'s hemisphere
 * check, `upload_data`'s format dispatch and threshold test) and the read
 * loop that splits each line, classifies it and keeps the four counters.
 * The projection and the geodesic distance are foreign calls, passed in as
 * uninterpreted functions in a `Geodesy` value.
 */
module Processor {
  import opened Wrappers
  import opened ConfigStore
  import opened Validation
  import opened Text

  /**
   * The foreign numerics. `inverseUtm(x, y, zone, north, south)` is the
   * inverse UTM projection with its floor-and-format step, giving the
   * (longitude, latitude) strings; `distance(lat1, lon1, lat2, lon2)` is the
   * ellipsoidal distance in meters.
   */
  datatype Geodesy = Geodesy(
    inverseUtm: (string, string, Value, bool, bool) -> (string, string),
    distance: (string, string, Value, Value) -> real)

  /** The counters the script reports at the end of the data file. */
  datatype Summary = Summary(linesRead: nat, linesParsed: nat, linesOk: nat, linesError: nat)

  /**
   * The hemisphere check of transform_utm_into_lat_lon: the (north, south)
   * flags for the projection. The exit message is built with `+`, so a
   * hemisphere that is not a string raises a TypeError instead of exiting
   * with "Unknown hemisphere".
   */
  function HemisphereFlags(hemisphere: Value): (r: Result<(bool, bool), Fatal>)
    ensures r.Success? <==> hemisphere == VStr("N") || hemisphere == VStr("S")
    ensures r.Success? ==> r.value.0 == (hemisphere == VStr("N")) && r.value.1 == !r.value.0
    ensures r.Failure? ==> r.error == (if hemisphere.VStr? then UnknownHemisphere else TypeErrorCrash)
  {
    if hemisphere == VStr("N") then Success((true, false))
    else if hemisphere == VStr("S") then Success((false, true))
    else if hemisphere.VStr? then Failure(UnknownHemisphere)
    else Failure(TypeErrorCrash)
  }

  /** transform_utm_into_lat_lon: the hemisphere check, then the projection with the matching flag set. */
  function TransformUtmIntoLatLon(geo: Geodesy, x: string, y: string, zone: Value, hemisphere: Value)
    : (r: Result<(string, string), Fatal>)
    ensures r.Success? <==> hemisphere == VStr("N") || hemisphere == VStr("S")
    ensures r.Success? ==>
      r.value == geo.inverseUtm(x, y, zone, hemisphere == VStr("N"), hemisphere == VStr("S"))
    ensures r.Failure? ==> r.error == (if hemisphere.VStr? then UnknownHemisphere else TypeErrorCrash)
  {
    var flags :- HemisphereFlags(hemisphere);
    Success(geo.inverseUtm(x, y, zone, flags.0, flags.1))
  }

  /** upload_data's dispatch: UTM is projected, any other format passes x and y through as (lon, lat). */
  function LonLat(s: Settings, geo: Geodesy, x: string, y: string): (r: Result<(string, string), Fatal>)
    ensures !s.format.Utm? ==> r == Success((x, y))
    ensures s.format.Utm? ==>
      var h := s.format.hemisphere;
      (r.Success? <==> h == VStr("N") || h == VStr("S")) &&
      (r.Success? ==> r.value == geo.inverseUtm(x, y, s.format.zone, h == VStr("N"), h == VStr("S"))) &&
      (r.Failure? ==> r.error == (if h.VStr? then UnknownHemisphere else TypeErrorCrash))
  {
    if s.format.Utm? then TransformUtmIntoLatLon(geo, x, y, s.format.zone, s.format.hemisphere)
    else Success((x, y))
  }

  /** The number Python compares a float with: ints, bools and floats; anything else raises TypeError. */
  function NumericValue(v: Value): Option<real> {
    match v
    case VInt(i) => Some(i as real)
    case VBool(b) => Some(if b then 1.0 else 0.0)
    case VReal(x) => Some(x)
    case _ => None
  }

  /** upload_data: true when the row is an error, that is, when it lies strictly beyond the maximum. */
  function UploadData(s: Settings, geo: Geodesy, name: string, x: string, y: string): (r: Result<bool, Fatal>)
    ensures r.Success? <==> LonLat(s, geo, x, y).Success? && NumericValue(s.maxDistance).Some?
    ensures r.Success? ==>
      var p := LonLat(s, geo, x, y).value;
      (r.value <==> geo.distance(p.1, p.0, s.centerLat, s.centerLon) > NumericValue(s.maxDistance).value)
    ensures r.Failure? ==>
      r.error == (if LonLat(s, geo, x, y).Failure? then LonLat(s, geo, x, y).error else TypeErrorCrash)
  {
    var p :- LonLat(s, geo, x, y);
    var distance := geo.distance(p.1, p.0, s.centerLat, s.centerLon);
    var max := NumericValue(s.maxDistance);
    if max.None? then Failure(TypeErrorCrash) else Success(distance > max.value)
  }

  /** `line_data[col - 1]`; a float column number cannot index a list. */
  function Field(fields: seq<string>, col: Column): (r: Result<string, Fatal>)
    ensures r.Success? <==> !col.isFloat && -|fields| <= col.number - 1 < |fields|
    ensures r.Success? ==>
      r.value == fields[if col.number >= 1 then col.number - 1 else |fields| + col.number - 1]
    ensures r.Failure? ==> r.error == (if col.isFloat then TypeErrorCrash else IndexErrorCrash)
  {
    if col.isFloat then Failure(TypeErrorCrash) else PyIndex(fields, col.number - 1)
  }

  /** One data line: strip the newline, split on tabs, pick name, x and y, classify. */
  function RowOutcome(s: Settings, geo: Geodesy, line: string): (r: Result<bool, Fatal>)
    ensures r.Success? ==> NumericValue(s.maxDistance).Some?
    ensures r.Success? && s.format.Utm? ==> s.format.hemisphere == VStr("N") || s.format.hemisphere == VStr("S")
    ensures r.Failure? ==> r.error == TypeErrorCrash || r.error == IndexErrorCrash || r.error == UnknownHemisphere
  {
    var fields := Split(StripNewlines(line), '\t');
    var name :- Field(fields, s.nameCol);
    var x :- Field(fields, s.xCol);
    var y :- Field(fields, s.yCol);
    UploadData(s, geo, name, x, y)
  }

  /** The lines the loop hands to upload_data: all but line 1 when the file has a header. */
  function ParsedLines(header: bool, lines: seq<string>): (r: seq<string>)
    ensures |r| == (if header && |lines| >= 1 then |lines| - 1 else |lines|)
  {
    if header && |lines| > 0 then lines[1..] else lines
  }

  /** Only a leading header line is dropped: the parsed lines are the file's tail, in order. */
  lemma ParsedLinesAreTail(header: bool, lines: seq<string>)
    ensures var rows := ParsedLines(header, lines);
      lines == lines[..|lines| - |rows|] + rows
  {
  }

  /** The error flag of every row in order, or the first row's crash, which ends the run. */
  function Verdicts(s: Settings, geo: Geodesy, rows: seq<string>): (r: Result<seq<bool>, Fatal>)
    decreases |rows|
    ensures r.Success? ==> |r.value| == |rows|
  {
    if |rows| == 0 then Success([])
    else
      var prefix :- Verdicts(s, geo, rows[..|rows| - 1]);
      var last :- RowOutcome(s, geo, rows[|rows| - 1]);
      Success(prefix + [last])
  }

  /** A successful run gives each row the verdict upload_data gave it. */
  lemma {:induction false} VerdictsAreRowOutcomes(s: Settings, geo: Geodesy, rows: seq<string>)
    requires Verdicts(s, geo, rows).Success?
    ensures forall i :: 0 <= i < |rows| ==> RowOutcome(s, geo, rows[i]) == Success(Verdicts(s, geo, rows).value[i])
  {
    if |rows| > 0 {
      var n := |rows| - 1;
      var front := rows[..n];
      var v := Verdicts(s, geo, rows).value;
      VerdictsAreRowOutcomes(s, geo, front);
      assert v == Verdicts(s, geo, front).value + [RowOutcome(s, geo, rows[n]).value];
      forall i | 0 <= i < |rows|
        ensures RowOutcome(s, geo, rows[i]) == Success(v[i])
      {
        if i < n {
          assert rows[i] == front[i];
        }
      }
    }
  }

  /** A failed run failed with the error of its first crashing row, and every earlier row succeeded. */
  lemma {:induction false} VerdictsStopAtFirstCrash(s: Settings, geo: Geodesy, rows: seq<string>)
    requires Verdicts(s, geo, rows).Failure?
    ensures exists k ::
              && 0 <= k < |rows|
              && RowOutcome(s, geo, rows[k]) == Failure(Verdicts(s, geo, rows).error)
              && (forall j :: 0 <= j < k ==> RowOutcome(s, geo, rows[j]).Success?)
  {
    var n := |rows| - 1;
    var front := rows[..n];
    assert forall i :: 0 <= i < |front| ==> front[i] == rows[i];
    if Verdicts(s, geo, front).Failure? {
      VerdictsStopAtFirstCrash(s, geo, front);
    } else {
      VerdictsAreRowOutcomes(s, geo, front);
      assert RowOutcome(s, geo, rows[n]) == Failure(Verdicts(s, geo, rows).error);
    }
  }

  /** One more row: the run so far, then that row's outcome. */
  lemma VerdictsSnoc(s: Settings, geo: Geodesy, rows: seq<string>, line: string)
    ensures Verdicts(s, geo, rows + [line]) ==
      if Verdicts(s, geo, rows).Failure? then Verdicts(s, geo, rows)
      else if RowOutcome(s, geo, line).Failure? then Failure(RowOutcome(s, geo, line).error)
      else Success(Verdicts(s, geo, rows).value + [RowOutcome(s, geo, line).value])
  {
    assert (rows + [line])[..|rows|] == rows;
  }

  /** How many of the flags equal `b`. */
  function Count(flags: seq<bool>, b: bool): nat {
    if |flags| == 0 then 0
    else Count(flags[..|flags| - 1], b) + (if flags[|flags| - 1] == b then 1 else 0)
  }

  lemma CountSnoc(flags: seq<bool>, x: bool, b: bool)
    ensures Count(flags + [x], b) == Count(flags, b) + (if x == b then 1 else 0)
  {
    assert (flags + [x])[..|flags|] == flags;
  }

  lemma {:induction false} CountBoth(flags: seq<bool>)
    ensures Count(flags, true) + Count(flags, false) == |flags|
  {
    if |flags| > 0 {
      CountBoth(flags[..|flags| - 1]);
    }
  }

  /** The whole read loop as a value: its summary, or the crash that stops it. */
  function Run(s: Settings, geo: Geodesy, lines: seq<string>): (r: Result<Summary, Fatal>)
    ensures r.Success? <==> Verdicts(s, geo, ParsedLines(s.header, lines)).Success?
    ensures r.Failure? ==> r.error == Verdicts(s, geo, ParsedLines(s.header, lines)).error
    ensures r.Success? ==>
      && r.value.linesRead == |lines|
      && r.value.linesParsed == (if s.header && |lines| >= 1 then |lines| - 1 else |lines|)
      && r.value.linesOk + r.value.linesError == r.value.linesParsed
  {
    var rows := ParsedLines(s.header, lines);
    var verdicts :- Verdicts(s, geo, rows);
    CountBoth(verdicts);
    Success(Summary(|lines|, |rows|, Count(verdicts, false), Count(verdicts, true)))
  }

  // ----- Lemmas about one row -----

  /** Validated settings never reach the projection's "Unknown hemisphere" exit. */
  lemma ValidatedHemisphereIsKnown(c: Config, geo: Geodesy, x: string, y: string)
    requires Validate(c).Success?
    ensures LonLat(Validate(c).value, geo, x, y).Success?
  {
  }

  /** The threshold is strict: a distance exactly at the maximum is not an error. */
  lemma AtMaximumIsNotAnError(s: Settings, geo: Geodesy, name: string, x: string, y: string)
    requires LonLat(s, geo, x, y).Success? && NumericValue(s.maxDistance).Some?
    requires var p := LonLat(s, geo, x, y).value;
      geo.distance(p.1, p.0, s.centerLat, s.centerLon) == NumericValue(s.maxDistance).value
    ensures UploadData(s, geo, name, x, y) == Success(false)
  {
  }

  /** Any distance beyond the maximum, however slightly, is an error. */
  lemma BeyondMaximumIsAnError(s: Settings, geo: Geodesy, name: string, x: string, y: string)
    requires LonLat(s, geo, x, y).Success? && NumericValue(s.maxDistance).Some?
    requires var p := LonLat(s, geo, x, y).value;
      geo.distance(p.1, p.0, s.centerLat, s.centerLon) > NumericValue(s.maxDistance).value
    ensures UploadData(s, geo, name, x, y) == Success(true)
  {
  }

  /** With 1-based integer columns that the row has, name, x and y are fields col - 1 of the stripped, split line. */
  lemma RowUsesConfiguredColumns(s: Settings, geo: Geodesy, line: string)
    requires !s.nameCol.isFloat && !s.xCol.isFloat && !s.yCol.isFloat
    requires s.nameCol.number >= 1 && s.xCol.number >= 1 && s.yCol.number >= 1
    requires var fields := Split(StripNewlines(line), '\t');
      s.nameCol.number <= |fields| && s.xCol.number <= |fields| && s.yCol.number <= |fields|
    ensures var fields := Split(StripNewlines(line), '\t');
      RowOutcome(s, geo, line) ==
        UploadData(s, geo, fields[s.nameCol.number - 1], fields[s.xCol.number - 1], fields[s.yCol.number - 1])
  {
  }

  /** A row with fewer fields than one of its 1-based integer columns stops the run with an IndexError. */
  lemma ShortRowIsIndexError(s: Settings, geo: Geodesy, line: string)
    requires !s.nameCol.isFloat && !s.xCol.isFloat && !s.yCol.isFloat
    requires s.nameCol.number >= 1 && s.xCol.number >= 1 && s.yCol.number >= 1
    requires var fields := Split(StripNewlines(line), '\t');
      s.nameCol.number > |fields| || s.xCol.number > |fields| || s.yCol.number > |fields|
    ensures RowOutcome(s, geo, line) == Failure(IndexErrorCrash)
  {
  }

  /** Validation does not reject column 0: Python's index -1 then picks the last field. */
  lemma ColumnZeroPicksLastField(line: string)
    ensures var fields := Split(StripNewlines(line), '\t');
      Field(fields, Column(0, false)) == Success(fields[|fields| - 1])
  {
  }

  // ----- Lemmas about the whole run -----

  /** `Count(flags, true)` is the number of positions holding true. */
  lemma {:induction false} CountIsTruePositions(flags: seq<bool>)
    ensures Count(flags, true) == |set i | 0 <= i < |flags| && flags[i]|
  {
    if |flags| > 0 {
      var n := |flags| - 1;
      var front := flags[..n];
      CountIsTruePositions(front);
      var before := set i | 0 <= i < n && front[i];
      assert before == set i | 0 <= i < n && flags[i];
      assert (set i | 0 <= i < |flags| && flags[i]) == before + (if flags[n] then {n} else {});
    }
  }

  /** The error counter counts exactly the parsed rows that lie beyond the maximum. */
  lemma ErrorCountIsRowsBeyondMaximum(s: Settings, geo: Geodesy, rows: seq<string>)
    requires Verdicts(s, geo, rows).Success?
    ensures Count(Verdicts(s, geo, rows).value, true) ==
      |set i | 0 <= i < |rows| && RowOutcome(s, geo, rows[i]) == Success(true)|
  {
    var v := Verdicts(s, geo, rows).value;
    VerdictsAreRowOutcomes(s, geo, rows);
    CountIsTruePositions(v);
    assert (set i | 0 <= i < |rows| && RowOutcome(s, geo, rows[i]) == Success(true)) ==
      (set i | 0 <= i < |v| && v[i]);
  }

  /** No row is ever classified differently because of the header flag. */
  lemma {:induction false} VerdictsIgnoreHeader(s: Settings, geo: Geodesy, rows: seq<string>, header: bool)
    ensures Verdicts(s, geo, rows) == Verdicts(s.(header := header), geo, rows)
  {
    if |rows| > 0 {
      VerdictsIgnoreHeader(s, geo, rows[..|rows| - 1], header);
      assert RowOutcome(s, geo, rows[|rows| - 1]) == RowOutcome(s.(header := header), geo, rows[|rows| - 1]);
    }
  }

  /** With a header, the run is the header-less run over lines 2.., with one more line read. */
  lemma HeaderSkipsOnlyFirstLine(s: Settings, geo: Geodesy, lines: seq<string>)
    requires s.header && |lines| >= 1
    ensures var without := Run(s.(header := false), geo, lines[1..]);
      Run(s, geo, lines) ==
        if without.Failure? then without
        else Success(without.value.(linesRead := without.value.linesRead + 1))
  {
    VerdictsIgnoreHeader(s, geo, lines[1..], false);
  }

  /** Once a prefix of the rows crashes, the run ends with that crash. */
  lemma {:induction false} CrashEndsRun(s: Settings, geo: Geodesy, rows: seq<string>, k: nat)
    requires k <= |rows|
    requires Verdicts(s, geo, rows[..k]).Failure?
    ensures Verdicts(s, geo, rows) == Verdicts(s, geo, rows[..k])
  {
    if k < |rows| {
      assert rows[..|rows| - 1][..k] == rows[..k];
      CrashEndsRun(s, geo, rows[..|rows| - 1], k);
    } else {
      assert rows[..k] == rows;
    }
  }

  lemma ParsedLinesStep(header: bool, lines: seq<string>, i: nat)
    requires i < |lines|
    ensures header && i == 0 ==> ParsedLines(header, lines[..i + 1]) == []
    ensures !(header && i == 0) ==>
      ParsedLines(header, lines[..i + 1]) == ParsedLines(header, lines[..i]) + [lines[i]]
  {
    if header && i > 0 {
      assert lines[..i + 1][1..] == lines[1..i + 1];
      assert lines[..i][1..] == lines[1..i];
      assert lines[1..i + 1] == lines[1..i] + [lines[i]];
    } else if !header {
      assert lines[..i + 1] == lines[..i] + [lines[i]];
    }
  }

  lemma ParsedLinesPrefix(header: bool, lines: seq<string>, i: nat)
    requires i <= |lines|
    ensures var rows := ParsedLines(header, lines[..i]);
      |rows| <= |ParsedLines(header, lines)| && rows == ParsedLines(header, lines)[..|rows|]
  {
  }

  // ----- The read loop -----

  /** The read loop: counts lines as the script does and stops at the first row that crashes. */
  method ReadLoop(s: Settings, geo: Geodesy, lines: seq<string>) returns (r: Result<Summary, Fatal>)
    ensures r == Run(s, geo, lines)
    ensures r.Success? ==> r.value.linesOk + r.value.linesError == r.value.linesParsed
  {
    var lineNumber, linesParsed, linesOk, linesError := 0, 0, 0, 0;
    ghost var verdicts: seq<bool> := [];
    for i := 0 to |lines|
      invariant lineNumber == i
      invariant linesParsed == |ParsedLines(s.header, lines[..i])|
      invariant Verdicts(s, geo, ParsedLines(s.header, lines[..i])) == Success(verdicts)
      invariant linesOk == Count(verdicts, false) && linesError == Count(verdicts, true)
    {
      ParsedLinesStep(s.header, lines, i);
      lineNumber := lineNumber + 1;
      if s.header && lineNumber == 1 {
        continue;
      }
      linesParsed := linesParsed + 1;
      var ret := RowOutcome(s, geo, lines[i]);
      VerdictsSnoc(s, geo, ParsedLines(s.header, lines[..i]), lines[i]);
      if ret.Failure? {
        ParsedLinesPrefix(s.header, lines, i + 1);
        CrashEndsRun(s, geo, ParsedLines(s.header, lines), linesParsed);
        assert lines[..|lines|] == lines;
        return Failure(ret.error);
      }
      CountSnoc(verdicts, ret.value, true);
      CountSnoc(verdicts, ret.value, false);
      if !ret.value {
        linesOk := linesOk + 1;
      } else {
        linesError := linesError + 1;
      }
      verdicts := verdicts + [ret.value];
    }
    assert lines[..|lines|] == lines;
    CountBoth(verdicts);
    r := Success(Summary(lineNumber, linesParsed, linesOk, linesError));
  }

  /** The script after `load_config`: validate, then read the data file. */
  method Convert(c: Config, geo: Geodesy, lines: seq<string>) returns (r: Result<Summary, Fatal>)
    ensures Validate(c).Failure? ==> r == Failure(Validate(c).error)
    ensures Validate(c).Success? ==> r == Run(Validate(c).value, geo, lines)
  {
    var settings := Validate(c);
    if settings.Failure? {
      return Failure(settings.error);
    }
    r := ReadLoop(settings.value, geo, lines);
  }

  /** The whole script on an already parsed configuration file. */
  method Script(parsed: ConfigData, geo: Geodesy, lines: seq<string>) returns (r: Result<Summary, Fatal>)
    ensures !Acceptable(parsed) ==> r.Failure?
    ensures r.Success? ==>
      && Acceptable(parsed)
      && r.value.linesRead == |lines|
      && r.value.linesOk + r.value.linesError == r.value.linesParsed
  {
    var config := new Config();
    config.LoadConfig(parsed);
    ValidateAcceptsExactly(config);
    r := Convert(config, geo, lines);
  }
}
