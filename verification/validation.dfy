/**
 * The top-level validation block of convert.py (the settings read with
 * `get2` after `load_config`, each checked in turn, the first failure being
 * fatal). `Validate` returns either the checked settings the read loop uses
 * or the first fatal error; `Acceptable` states independently which
 * configurations pass.
 */
module Validation {
  import opened Wrappers
  import opened ConfigStore

  /**
   * A column number after the script's integer check. `isFloat` records a
   * YAML float such as `2.0`: it passes the check (`2.0 == int(2.0)`) but
   * cannot index a list later.
   */
  datatype Column = Column(number: int, isFloat: bool)

  /** `utm` keeps the raw zone and hemisphere values handed to the projection. */
  datatype Format = Utm(zone: Value, hemisphere: Value) | PassThrough

  /** The settings the read loop and `upload_data` use. */
  datatype Settings = Settings(
    format: Format,
    centerName: Value,
    centerLat: Value,
    centerLon: Value,
    maxDistance: Value,
    nameCol: Column,
    xCol: Column,
    yCol: Column,
    header: bool)

  predicate ColumnsDistinct(s: Settings) {
    s.nameCol.number != s.xCol.number &&
    s.nameCol.number != s.yCol.number &&
    s.xCol.number != s.yCol.number
  }

  /** What `v == int(v)` accepts: ints, bools (a Python bool is an int) and integral floats. */
  predicate Whole(v: Value) {
    v.VInt? || v.VBool? || (v.VReal? && v.r == v.r.Floor as real)
  }

  function WholeNumber(v: Value): int
    requires Whole(v)
  {
    match v
    case VInt(i) => i
    case VBool(b) => if b then 1 else 0
    case VReal(x) => x.Floor
  }

  /**
   * The script's integer check `if v != int(v): bye1(...)` with its
   * `except ValueError`: a string always fails (either `int` raises
   * ValueError or a string never equals an int); `int` of a list, a mapping
   * or None raises a TypeError nothing catches.
   */
  function IntegerCheck(v: Value, notInteger: Fatal): (r: Result<Column, Fatal>)
    ensures r.Success? <==> Whole(v)
    ensures r.Success? ==> r.value.number == WholeNumber(v) && (r.value.isFloat <==> v.VReal?)
    ensures (v.VStr? || v.VReal?) && !Whole(v) ==> r == Failure(notInteger)
    ensures (v.VList? || v.VMap? || v.VNone?) ==> r == Failure(TypeErrorCrash)
  {
    match v
    case VInt(i) => Success(Column(i, false))
    case VBool(b) => Success(Column(if b then 1 else 0, false))
    case VReal(x) => if x == x.Floor as real then Success(Column(x.Floor, true)) else Failure(notInteger)
    case VStr(_) => Failure(notInteger)
    case _ => Failure(TypeErrorCrash)
  }

  /** A `get2` lookup followed by `if value is None: bye1(missing)`. */
  function Required(c: Config, name1: string, name2: string, missing: Fatal): (r: Result<Value, Fatal>)
    reads c
    requires c.configfileRead == 1
    ensures r.Success? <==> Present(c.config, name1, name2)
    ensures r.Success? ==> r.value == c.config[name1][name2]
    ensures r.Failure? ==> r.error == missing
  {
    var o := c.Get2(name1, name2).value;
    if IsNone(o) then Failure(missing) else Success(o.value)
  }

  /** The format dispatch: only exactly `'utm'` needs a zone and a hemisphere. */
  function CoordinateFormat(c: Config, format: Value): (r: Result<Format, Fatal>)
    reads c
    requires c.configfileRead == 1
    ensures format != VStr("utm") ==> r == Success(PassThrough)
    ensures r.Success? && r.value.Utm? ==>
      && Whole(r.value.zone)
      && (r.value.hemisphere == VStr("N") || r.value.hemisphere == VStr("S"))
    ensures r.Failure? ==>
      r.error == ZoneMissing || r.error == ZoneNotInteger || r.error == TypeErrorCrash || r.error == HemisphereRequired
  {
    if format == VStr("utm") then
      var zone :- Required(c, "coordinates", "zone", ZoneMissing);
      var _ :- IntegerCheck(zone, ZoneNotInteger);
      var hemisphere :- Required(c, "coordinates", "hemisphere", HemisphereRequired);
      if hemisphere != VStr("N") && hemisphere != VStr("S") then Failure(HemisphereRequired)
      else Success(Utm(zone, hemisphere))
    else
      Success(PassThrough)
  }

  /** A column setting of the `input` group: present, then a whole number. */
  function ColumnSetting(c: Config, key: string, role: ColumnRole): (r: Result<Column, Fatal>)
    reads c
    requires c.configfileRead == 1
    ensures r.Success? <==> WholeSetting(c.config, "input", key)
    ensures r.Success? ==>
      r.value.number == ColumnNumber(c.config, key) && (r.value.isFloat <==> c.config["input"][key].VReal?)
    ensures r.Failure? ==>
      r.error ==
        if !Present(c.config, "input", key) then ColumnMissing(role)
        else if c.config["input"][key].VStr? || c.config["input"][key].VReal? then ColumnNotInteger(role)
        else TypeErrorCrash
  {
    var v :- Required(c, "input", key, ColumnMissing(role));
    IntegerCheck(v, ColumnNotInteger(role))
  }

  /** The validation block, in the source's order; the first failing check decides the error. */
  function Validate(c: Config): (r: Result<Settings, Fatal>)
    reads c
    ensures c.configfileRead != 1 ==> r == Failure(NotInitialized)
    ensures r.Success? ==> ColumnsDistinct(r.value)
    ensures r.Success? && r.value.format.Utm? ==>
      r.value.format.hemisphere == VStr("N") || r.value.format.hemisphere == VStr("S")
  {
    var format :- c.Get2("coordinates", "format");
    if IsNone(format) then Failure(FormatMissing) else
    var fmt :- CoordinateFormat(c, format.value);
    var centerName :- Required(c, "center location", "name", CenterNameMissing);
    var centerLat :- Required(c, "center location", "lat", CenterLatMissing);
    var centerLon :- Required(c, "center location", "lon", CenterLonMissing);
    var maxDistance :- Required(c, "center location", "max distance", MaxDistanceMissing);
    var nameCol :- ColumnSetting(c, "name", NameColumn);
    var xCol :- ColumnSetting(c, "x", XColumn);
    var yCol :- ColumnSetting(c, "y", YColumn);
    var header :- Required(c, "input", "header", HeaderMissing);
    if !header.VBool? then Failure(HeaderNotFlag)
    else if nameCol.number == xCol.number || nameCol.number == yCol.number || xCol.number == yCol.number then
      Failure(OverlappingColumns)
    else
      Success(Settings(fmt, centerName, centerLat, centerLon, maxDistance, nameCol, xCol, yCol, header.b))
  }

  // ----- An independent statement of which configurations pass -----

  /** A setting that `get2` finds and that is not YAML null. */
  predicate Present(cfg: ConfigData, name1: string, name2: string) {
    name1 in cfg && name2 in cfg[name1] && cfg[name1][name2] != VNone
  }

  predicate IsUtm(cfg: ConfigData) {
    "coordinates" in cfg && "format" in cfg["coordinates"] && cfg["coordinates"]["format"] == VStr("utm")
  }

  predicate WholeSetting(cfg: ConfigData, name1: string, name2: string) {
    Present(cfg, name1, name2) && Whole(cfg[name1][name2])
  }

  function ColumnNumber(cfg: ConfigData, key: string): int
    requires WholeSetting(cfg, "input", key)
  {
    WholeNumber(cfg["input"][key])
  }

  /** Every check except the overlap of the column numbers passes. */
  predicate AcceptableUpToOverlap(cfg: ConfigData) {
    && Present(cfg, "coordinates", "format")
    && (IsUtm(cfg) ==>
          && WholeSetting(cfg, "coordinates", "zone")
          && "hemisphere" in cfg["coordinates"]
          && (cfg["coordinates"]["hemisphere"] == VStr("N") || cfg["coordinates"]["hemisphere"] == VStr("S")))
    && Present(cfg, "center location", "name")
    && Present(cfg, "center location", "lat")
    && Present(cfg, "center location", "lon")
    && Present(cfg, "center location", "max distance")
    && WholeSetting(cfg, "input", "name")
    && WholeSetting(cfg, "input", "x")
    && WholeSetting(cfg, "input", "y")
    && "header" in cfg["input"] && cfg["input"]["header"].VBool?
  }

  predicate ColumnNumbersDistinct(cfg: ConfigData)
    requires AcceptableUpToOverlap(cfg)
  {
    var n, x, y := ColumnNumber(cfg, "name"), ColumnNumber(cfg, "x"), ColumnNumber(cfg, "y");
    n != x && n != y && x != y
  }

  predicate Acceptable(cfg: ConfigData) {
    AcceptableUpToOverlap(cfg) && ColumnNumbersDistinct(cfg)
  }

  lemma CoordinateFormatAccepts(c: Config, format: Value)
    requires c.configfileRead == 1
    requires Present(c.config, "coordinates", "format") && format == c.config["coordinates"]["format"]
    ensures CoordinateFormat(c, format).Success? <==>
      (IsUtm(c.config) ==>
          && WholeSetting(c.config, "coordinates", "zone")
          && "hemisphere" in c.config["coordinates"]
          && (c.config["coordinates"]["hemisphere"] == VStr("N") || c.config["coordinates"]["hemisphere"] == VStr("S")))
    ensures CoordinateFormat(c, format).Success? ==>
      if IsUtm(c.config) then
        CoordinateFormat(c, format).value ==
          Utm(c.config["coordinates"]["zone"], c.config["coordinates"]["hemisphere"])
      else CoordinateFormat(c, format).value == PassThrough
  {
  }

  /** A loaded configuration passes validation exactly when it is `Acceptable`. */
  lemma ValidateAcceptsExactly(c: Config)
    requires c.configfileRead == 1
    ensures Validate(c).Success? <==> Acceptable(c.config)
  {
    var cfg := c.config;
    if Present(cfg, "coordinates", "format") {
      CoordinateFormatAccepts(c, cfg["coordinates"]["format"]);
    }
  }

  /** The settings handed to the read loop are the configuration's own values. */
  lemma ValidatedSettingsComeFromConfig(c: Config)
    requires c.configfileRead == 1
    requires Validate(c).Success?
    ensures var s, cfg := Validate(c).value, c.config;
      && Acceptable(cfg)
      && (s.format.Utm? <==> IsUtm(cfg))
      && (s.format.Utm? ==>
            s.format.zone == cfg["coordinates"]["zone"] && s.format.hemisphere == cfg["coordinates"]["hemisphere"])
      && s.centerName == cfg["center location"]["name"]
      && s.centerLat == cfg["center location"]["lat"]
      && s.centerLon == cfg["center location"]["lon"]
      && s.maxDistance == cfg["center location"]["max distance"]
      && s.nameCol.number == ColumnNumber(cfg, "name")
      && s.xCol.number == ColumnNumber(cfg, "x")
      && s.yCol.number == ColumnNumber(cfg, "y")
      && s.header == cfg["input"]["header"].b
  {
    ValidateAcceptsExactly(c);
    CoordinateFormatAccepts(c, c.config["coordinates"]["format"]);
  }

  /** Any two equal column numbers make the configuration fatal. */
  lemma OverlappingColumnsAreFatal(c: Config)
    requires c.configfileRead == 1
    requires AcceptableUpToOverlap(c.config) && !ColumnNumbersDistinct(c.config)
    ensures Validate(c) == Failure(OverlappingColumns)
  {
    CoordinateFormatAccepts(c, c.config["coordinates"]["format"]);
  }

  /** A missing coordinate format is the first fatal error. */
  lemma MissingFormatIsFatal(c: Config)
    requires c.configfileRead == 1
    requires !Present(c.config, "coordinates", "format")
    ensures Validate(c) == Failure(FormatMissing)
  {
  }

  /** utm without a zone (absent or null) is fatal with the zone message. */
  lemma UtmWithoutZoneIsFatal(c: Config)
    requires c.configfileRead == 1
    requires IsUtm(c.config) && !Present(c.config, "coordinates", "zone")
    ensures Validate(c) == Failure(ZoneMissing)
  {
  }

  /**
   * utm with a zone that is not a whole number is fatal: a string or a
   * fractional float with the integer message, a list or mapping by an
   * uncaught TypeError.
   */
  lemma UtmZoneNotIntegerIsFatal(c: Config)
    requires c.configfileRead == 1
    requires IsUtm(c.config) && Present(c.config, "coordinates", "zone")
    requires !Whole(c.config["coordinates"]["zone"])
    ensures var zone := c.config["coordinates"]["zone"];
      Validate(c) == Failure(if zone.VStr? || zone.VReal? then ZoneNotInteger else TypeErrorCrash)
  {
  }

  /** utm with a usable zone but a hemisphere other than exactly "N" or "S" (or none) is fatal. */
  lemma UtmBadHemisphereIsFatal(c: Config)
    requires c.configfileRead == 1
    requires IsUtm(c.config) && WholeSetting(c.config, "coordinates", "zone")
    requires "hemisphere" !in c.config["coordinates"] ||
      (c.config["coordinates"]["hemisphere"] != VStr("N") && c.config["coordinates"]["hemisphere"] != VStr("S"))
    ensures Validate(c) == Failure(HemisphereRequired)
  {
  }

  /**
   * Any format other than exactly 'utm' ignores the zone and the hemisphere:
   * removing both from the configuration does not change the outcome.
   */
  lemma NonUtmIgnoresZoneAndHemisphere(c1: Config, c2: Config)
    requires c1.configfileRead == 1 && c2.configfileRead == 1
    requires Present(c1.config, "coordinates", "format") && !IsUtm(c1.config)
    requires c2.config == c1.config["coordinates" := c1.config["coordinates"] - {"zone", "hemisphere"}]
    ensures Validate(c1) == Validate(c2)
    ensures Validate(c1).Success? ==> Validate(c1).value.format == PassThrough
  {
    assert c2.config["coordinates"]["format"] == c1.config["coordinates"]["format"];
  }
}
