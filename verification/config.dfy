/**
 * The configuration store of convert.py: the `Config` class, which holds the
 * parsed YAML file and a "loaded" flag, and its two accessors `get1` and
 * `get2`. Fatal exits (`sys.exit(1)` after a message) become `Failure`
 * values of `Fatal`, which also names every other fatal exit of the script.
 */
module ConfigStore {
  import opened Wrappers

  /** A value as YAML loading produces it; `VNone` is Python's `None` (YAML null). */
  datatype Value =
    | VNone
    | VBool(b: bool)
    | VInt(i: int)
    | VReal(r: real)
    | VStr(s: string)
    | VList(items: seq<Value>)
    | VMap(entries: map<string, Value>)

  /** The loaded configuration: top-level groups, each a mapping of settings. */
  type ConfigData = map<string, map<string, Value>>

  /** Which input column a column setting names. */
  datatype ColumnRole = NameColumn | XColumn | YColumn

  /** Every way the script ends with exit status 1. */
  datatype Fatal =
    | NotInitialized                 // "config is not initialized!"
    | MissingValue(name: string)     // get1: "requested config value does not exist!"
    | FormatMissing                  // coordinate system format not set
    | ZoneMissing                    // utm without 'zone'
    | ZoneNotInteger                 // 'zone' specification must be an integer
    | HemisphereRequired             // utm without a hemisphere of exactly N or S
    | CenterNameMissing
    | CenterLatMissing
    | CenterLonMissing
    | MaxDistanceMissing
    | ColumnMissing(role: ColumnRole)
    | ColumnNotInteger(role: ColumnRole)
    | HeaderMissing
    | HeaderNotFlag
    | OverlappingColumns
    | UnknownHemisphere              // transform_utm_into_lat_lon's own hemisphere check
    | TypeErrorCrash                 // an uncaught TypeError (traceback, exit 1)
    | IndexErrorCrash                // an uncaught IndexError on a short row

  class Config {
    /** 1 once `load_config` has stored a configuration, 0 before. */
    var configfileRead: int
    var config: ConfigData

    constructor ()
      ensures configfileRead == 0
    {
      configfileRead := 0;
      config := map[];
    }

    /** load_config after its file checks: `parsed` is what the YAML loader returned. */
    method LoadConfig(parsed: ConfigData)
      modifies this
      ensures configfileRead == 1 && config == parsed
    {
      config := parsed;
      configfileRead := 1;
    }

    /** get1: a first-level group; fatal when not loaded or when the group is absent. */
    function Get1(name1: string): (r: Result<map<string, Value>, Fatal>)
      reads this
      ensures configfileRead != 1 <==> r == Failure(NotInitialized)
      ensures configfileRead == 1 ==>
        (r.Success? <==> name1 in config) &&
        (r.Success? ==> r.value == config[name1]) &&
        (r.Failure? ==> r.error == MissingValue(name1))
    {
      if configfileRead != 1 then Failure(NotInitialized)
      else if name1 in config then Success(config[name1])
      else Failure(MissingValue(name1))
    }

    /** get2: a second-level setting, `None` when either level is absent. */
    function Get2(name1: string, name2: string): (r: Result<Option<Value>, Fatal>)
      reads this
      ensures r.Failure? <==> configfileRead != 1
      ensures r.Failure? ==> r.error == NotInitialized
      ensures r == Success(None) <==>
        configfileRead == 1 && (name1 !in config || name2 !in config[name1])
      ensures r.Success? && r.value.Some? ==>
        name1 in config && name2 in config[name1] && r.value.value == config[name1][name2]
    {
      if configfileRead != 1 then Failure(NotInitialized)
      else if name1 in config then
        if name2 in config[name1] then Success(Some(config[name1][name2]))
        else Success(None)
      else Success(None)
    }
  }

  /** Python's `x is None` on what `get2` returned: absent, or stored as YAML null. */
  predicate IsNone(o: Option<Value>) {
    o.None? || o.value == VNone
  }

  /** Once the configuration is loaded, `get2` never aborts. */
  lemma Get2NeverAbortsOnceLoaded(c: Config, name1: string, name2: string)
    requires c.configfileRead == 1
    ensures c.Get2(name1, name2).Success?
  {
  }

  /**
   * `get2(a, b)` is `get1(a)` followed by a lookup of `b`, except that a missing
   * group gives `None` where `get1` aborts.
   */
  lemma Get2ThroughGet1(c: Config, name1: string, name2: string)
    requires c.configfileRead == 1
    ensures c.Get1(name1).Failure? ==> c.Get2(name1, name2) == Success(None)
    ensures c.Get1(name1).Success? ==>
      var group := c.Get1(name1).value;
      c.Get2(name1, name2) == Success(if name2 in group then Some(group[name2]) else None)
  {
  }

  /** Before `load_config` both accessors abort, whatever is asked. */
  lemma AccessorsAbortBeforeLoad(c: Config, name1: string, name2: string)
    requires c.configfileRead != 1
    ensures c.Get1(name1) == Failure(NotInitialized)
    ensures c.Get2(name1, name2) == Failure(NotInitialized)
  {
  }
}
