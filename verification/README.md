# UTM/WGS84 point checker — a Dafny model

`convert.py` reads a YAML configuration and a tab-separated data file of
named points, given either in UTM or in WGS84. It converts UTM points to
longitude/latitude and computes each point's geodesic distance from a
configured centre. A point farther than the configured maximum is
reported as an error, and at the end the script prints four counters:
lines read, lines parsed, lines without error and lines with error.

This project models the decision logic of that script. The projection
and the distance computation stay opaque.

- `ConfigStore` (config.dfy) is the `Config` class. It holds the loaded
  configuration and the "loaded" flag (`__configfile_read`), and offers
  the two accessors `get1` and `get2`. Every `sys.exit(1)` of the script
  is a `Fatal` value, so an abort becomes a `Failure` result.
- `Validation` (validation.dfy) is the top-level validation block. It
  runs the checks in the source's order, and the first failing check
  decides the error. `Acceptable` says separately which configurations
  pass, and a lemma proves that the two agree.
- `Text` (text.dfy) models Python's `rstrip("\n")`, `split("\t")` and
  list indexing, negative indices included.
- `Processor` (processor.dfy) covers three things. The first is the
  hemisphere check of `transform_utm_into_lat_lon`. The second is
  `upload_data`: the format dispatch and the strict `distance > max`
  test. The third is the read loop: `ReadLoop` keeps the four counters
  in a `for` loop and is proved equal to the functional specification
  `Run`.
- `Scenarios` (scenarios.dfy) holds concrete runs. One is the Origin/Pt1/Pt2
  example: `OriginConfigValidates` derives its settings and `OriginRun` runs its two lines. The other is a three-line file with a header.

The inverse UTM projection and `Geod.inv` are uninterpreted functions,
passed in as the fields of a `Geodesy` value. The file contents are
passed in as a sequence of lines. The parsed YAML is passed in as a map.

Points where the model follows the code rather than a narrower reading
of it:
- Any format other than exactly `'utm'` passes x and y through
  unchanged, `'wgs84'` or not.
- The zone is not range-checked. Any value equal to its `int()` passes:
  an int, a bool, or a float with no fractional part.
- The column settings pass the same integer check. Validation does not
  require them to be at least 1. Column 0 therefore selects the last
  field through Python's index -1 (`ColumnZeroPicksLastField`).
- A float column such as `2.0` passes validation, but indexing with it
  raises a TypeError on the first parsed row.
- A hemisphere is accepted only as exactly the string `"N"` or `"S"`.
  Validation rejects anything else before the projection's own check is
  reached (`ValidatedHemisphereIsKnown`). That check exits with
  "Unknown hemisphere" for any other string. For a value that is not a
  string, building the message with `+` raises a TypeError first.
- A row with too few fields raises an uncaught IndexError that ends the
  run. The model makes this an explicit `IndexErrorCrash` result, and no
  summary is produced.

## Model

| member | source | states |
|---|---|---|
| ConfigStore.Config.constructor | convert.py:39-46 | a new configuration store is not yet loaded (`__configfile_read` is 0) |
| ConfigStore.Config.LoadConfig | convert.py:187-189 | after loading, the store holds the parsed configuration and is marked loaded |
| ConfigStore.Config.Get1 | convert.py:207-218 | aborts exactly when the store is not loaded; once loaded, returns the group if present and otherwise aborts naming the missing key |
| ConfigStore.Config.Get2 | convert.py:235-246 | aborts exactly when the store is not loaded; returns None exactly when either level is missing; otherwise returns the stored value |
| ConfigStore.Get2NeverAbortsOnceLoaded | convert.py:235-246 | once loaded, get2 never aborts, whatever is asked |
| ConfigStore.Get2ThroughGet1 | convert.py:207-246 | get2(a, b) is get1(a) followed by a lookup of b, except that a missing group gives None where get1 aborts |
| ConfigStore.AccessorsAbortBeforeLoad | convert.py:207-239 | before loading, both accessors abort with "config is not initialized" |
| Validation.IntegerCheck | convert.py:382-386 | the `v != int(v)` check passes exactly ints, bools and integral floats; strings and fractional floats fail with the setting's message; lists, mappings and None raise a TypeError |
| Validation.Required | convert.py:397-410 | a get2 lookup followed by an `is None` check succeeds exactly when the setting is present and not null, and then returns it |
| Validation.Validate | convert.py:373-453 | before loading it aborts; validated settings have pairwise distinct column numbers, and a UTM hemisphere that is exactly N or S |
| Validation.CoordinateFormat | convert.py:377-392 | a format other than exactly 'utm' is the pass-through; an accepted utm format carries a whole-number zone and a hemisphere of N or S; every failure is a zone or hemisphere error, or the TypeError of the zone's integer check |
| Validation.ColumnSetting | convert.py:414-439 | a column setting is accepted exactly when it is present and a whole number, and then gives that number; a missing setting, a non-integer and a TypeError are told apart as in the source |
| Validation.CoordinateFormatAccepts | convert.py:377-392 | the format dispatch succeeds exactly when a non-utm format is given, or a whole-number zone and a hemisphere of N or S are given; it yields Utm(zone, hemisphere) or the pass-through |
| Validation.ValidateAcceptsExactly | convert.py:373-453 | a loaded configuration passes validation if and only if it satisfies the independent predicate Acceptable |
| Validation.ValidatedSettingsComeFromConfig | convert.py:373-453 | every validated setting is the configuration's own value: format, zone, hemisphere, centre, maximum, column numbers, header flag |
| Validation.OverlappingColumnsAreFatal | convert.py:452-453 | when every other check passes and two column numbers are equal, validation fails with "Overlapping column numbers" |
| Validation.MissingFormatIsFatal | convert.py:373-375 | a missing or null coordinate format is fatal |
| Validation.UtmWithoutZoneIsFatal | convert.py:378-381 | utm with no zone, or a null zone, is fatal with the zone message |
| Validation.UtmZoneNotIntegerIsFatal | convert.py:382-386 | utm with a zone that is not a whole number is fatal: the integer message for strings and fractional floats, a TypeError for lists and mappings |
| Validation.UtmBadHemisphereIsFatal | convert.py:388-392 | utm with a valid zone but a hemisphere that is missing or not exactly "N" or "S" is fatal |
| Validation.NonUtmIgnoresZoneAndHemisphere | convert.py:377-392 | with a non-utm format, removing the zone and the hemisphere does not change the result, and the result is the pass-through format |
| Text.StripNewlines | convert.py:471 | the result is the longest prefix of the line that does not end in a newline; everything removed is newlines |
| Text.StripOneNewline | convert.py:471 | a line that ends in one newline loses exactly that newline |
| Text.Split | convert.py:472 | the split yields at least one field, no field contains a tab, and joining the fields with tabs gives back the line |
| Text.SplitJoin | convert.py:472 | splitting undoes joining tab-free fields (the other half of the round trip) |
| Text.PyIndex | convert.py:473 | indexing succeeds exactly for -len <= k < len, counting negative k from the end; otherwise it raises an IndexError |
| Processor.HemisphereFlags | convert.py:286-293 | only "N" and "S" are accepted; they give exactly one of the north/south flags; any other string exits with "Unknown hemisphere", and a value that is not a string raises a TypeError while the message is built |
| Processor.TransformUtmIntoLatLon | convert.py:283-306 | succeeds exactly for hemisphere "N" or "S", and then is the projection called with the matching north/south flag; the failures are those of the hemisphere check |
| Processor.LonLat | convert.py:343-351 | a non-utm format passes x and y through as (lon, lat); utm projects with the hemisphere's flags, and fails exactly when the hemisphere is unknown, with "Unknown hemisphere" for a string and a TypeError otherwise |
| Processor.UploadData | convert.py:340-362 | succeeds exactly when the point resolves and the maximum is numeric; the row is an error exactly when its distance is strictly greater than the maximum; a failure is the projection's error, or a TypeError for a maximum that is not a number |
| Processor.ValidatedHemisphereIsKnown | convert.py:283-293 | settings that passed validation never reach the projection's "Unknown hemisphere" exit |
| Processor.AtMaximumIsNotAnError | convert.py:355-357 | a distance exactly equal to the maximum is not an error (the test is strict) |
| Processor.BeyondMaximumIsAnError | convert.py:355-357 | any distance above the maximum is an error |
| Processor.Field | convert.py:473 | `line_data[col - 1]` succeeds exactly for an integer column with -len <= col-1 < len, picking the field counted from the end for col-1 < 0; a float column is a TypeError, any other miss an IndexError |
| Processor.RowOutcome | convert.py:471-477 | a classified row had a numeric maximum and, under utm, a known hemisphere; a row can only crash with a TypeError, an IndexError or the hemisphere exit, never with a configuration error |
| Processor.ParsedLines | convert.py:464-469 | one line fewer is parsed than read exactly when the file has a header and is not empty |
| Processor.ParsedLinesAreTail | convert.py:464-469 | the parsed lines are the file's lines after the skipped header, in order |
| Processor.RowUsesConfiguredColumns | convert.py:471-473 | for 1-based integer columns the row has, name, x and y are fields col-1 of the newline-stripped line split on tabs |
| Processor.ShortRowIsIndexError | convert.py:473 | a row with fewer fields than one of its 1-based columns stops the run with an IndexError |
| Processor.ColumnZeroPicksLastField | convert.py:473 | column 0 selects the last field of the row |
| Processor.Verdicts | convert.py:464-477 | a successful classification gives one verdict per parsed row |
| Processor.VerdictsAreRowOutcomes | convert.py:473-477 | each verdict is exactly what upload_data returned for that row |
| Processor.VerdictsStopAtFirstCrash | convert.py:464-473 | a failed run carries the error of the first crashing row, and every earlier row was processed normally |
| Processor.CrashEndsRun | convert.py:473 | once a prefix of the rows crashes, the whole run ends with that crash |
| Processor.CountBoth | convert.py:473-477 | every verdict is counted exactly once, as ok or as error |
| Processor.Run | convert.py:458-483 | the run succeeds exactly when every parsed row is classified, and otherwise carries the first crash; lines read is the number of lines; lines parsed is n-1 with a header (n >= 1) and n without one; ok + error = parsed |
| Processor.ErrorCountIsRowsBeyondMaximum | convert.py:473-477 | the error counter is the number of parsed rows that upload_data flagged |
| Processor.VerdictsIgnoreHeader | convert.py:464-477 | the header flag never changes how a row is classified |
| Processor.HeaderSkipsOnlyFirstLine | convert.py:464-469 | with a header, the run is the header-less run over lines 2 onward, with one more line read |
| Processor.ReadLoop | convert.py:458-483 | the imperative loop with its four counters computes exactly Run, including stopping at the first crashing row, and keeps ok + error = parsed |
| Processor.Convert | convert.py:372-483 | validation failure is the result; otherwise the result is the read loop over the validated settings |
| Processor.Script | convert.py:367-483 | an unacceptable configuration always ends in failure; a successful run had an acceptable configuration, read every line, and keeps ok + error = parsed |
| Scenarios.OriginConfigValidates | convert.py:373-453 | the Origin configuration validates to pass-through settings with columns 1, 2, 3 and no header |
| Scenarios.ThreeFields | convert.py:471-472 | a line "name TAB x TAB y NEWLINE" yields exactly the fields name, x, y |
| Scenarios.OriginRow | convert.py:471-473 | under the Origin settings, a three-field row is an error exactly when its distance exceeds 1000 m |
| Scenarios.TwoRowVerdicts | convert.py:464-477 | two successfully classified rows give their two verdicts in order |
| Scenarios.TwoRowRun | convert.py:464-477 | a two-line run without a header counts its two verdicts |
| Scenarios.OriginTwoRows | convert.py:458-483 | under the Origin settings, a row within 1000 m and a row beyond it give 2 read, 2 parsed, 1 ok, 1 error |
| Scenarios.OriginRun | convert.py:458-483 | the lines "Pt1 TAB 0.0 TAB 0.005" at 556.6 m and "Pt2 TAB 0.0 TAB 0.02" at 2226 m give 2 read, 2 parsed, 1 ok, 1 error |
| Scenarios.HeaderedThreeLineFile | convert.py:464-469 | a three-line file with a header reads 3 lines and parses 2 |

## Left out

- Command-line parsing (`parse_parameters`, `config_help`, `print_help`, the help, verbose and quiet flags, the `arguments` field): argparse plumbing. The data file's lines and the parsed YAML are parameters instead.
- The `$HOME` checks, the config file's existence and permission-bit checks, YAML loading and its parse error, and `load_config`'s early return without a config path: operating-system and library I/O. `LoadConfig` starts from the already parsed configuration.
- Configurations whose top level or whose groups are not mappings (for example, `in` on a string group is a substring test): the configuration is modelled as a two-level map of string keys.
- The pyproj inverse UTM projection (including its `errcheck` exceptions) and `Geod.inv`: foreign calls on floats, modelled as uninterpreted total functions. A failure inside them is not modelled.
- Flooring to 6 decimals and the `"%.6f"` formatting: floating-point formatting, folded into the opaque projection result.
- Floats are exact reals: NaN and infinity are not modelled (`int(nan)` raises ValueError, `int(inf)` raises OverflowError), and neither is rounding.
- Universal-newline translation when the file is read: the file is given as its lines.
- Logging, printing, flushing and the message texts. `sys.exit` is not modelled as process termination: each fatal exit is a `Fatal` constructor, and a clean run is a `Success` summary.
- Processor.Script: its postcondition states acceptance and the counter facts, not the full equality with `Run`, because the `Config` object it creates cannot be named in its postcondition. `Processor.Convert` states the full equality.
