# AirQ to CHORDS: the record-shaping core

`airqtochords.py` reads an air-quality sensor once per reporting interval. It turns each
reading into the record that the CHORDS sender turns into a request. This project models the
pure, deterministic part of that program in Dafny and proves what it promises:

- **Field renaming** (`make_chords_vars`), in module `Rename`. A loop over the reading's entries
  writes every field the rename table lists under its new name. It drops every other field and
  wraps the result under a single `"vars"` key. `MakeChordsVars` is that loop. Each step picks an
  arbitrary unvisited key, so any dict iteration order is covered. The method is proved against
  the order-free specification `Renamed`. It equals `Renamed` whenever no two fields of the
  reading are renamed to the same name.
- **Timestamp** (`timestamp`), in module `Timestamp`. The six UTC fields of `time.gmtime()` are
  formatted as `YYYY-MM-DDTHH:MM:SSZ`, the extended date-time form of ISO 8601 (section 5.6 of
  RFC 3339). Python's `{:04}`/`{:02}` zero padding is modelled by `Padded`. The clock reading is a
  parameter. For fields that fit their widths, the format and `Parse` are proved to be inverse
  bijections between clock readings and the strings of that shape.
- **Signal strength** (`get_iw`), in module `Signal`. Of the wireless inspector's dictionary only
  `sig_dbm` is kept. The dictionary is a parameter.
- **Startup** (the main block, lines 87-115), in module `Startup`:
  - the argument check;
  - the built-in configuration document;
  - the lookups into the decoded configuration, in program order. Each subscript `v[key]` is
    `Json.Lookup`, with Python's `KeyError` and `TypeError` as `Result` failures;
  - the delivery options: `inst_id` and `test` always, `skey` when present, and `api_email` and
    `api_key` only as a pair.
- **One collection cycle** (lines 134-148), in module `Cycle`. `BuildRecord` takes the steps in
  the program's order: stamp the reading's `time`, rename it, merge the signal variables into
  `"vars"` (they win on a shared name), then merge the options at the top level. It is proved
  equal to the specification `AssembledRecord`. The lemmas about `AssembledRecord` state what
  reaches CHORDS.

Values are modelled by the datatype `Json.Json`. Dafny maps are values, so the caller's reading
can never be changed by the renaming; the program gets the same effect by building a fresh dict.

The built-in configuration (lines 18-35) calls its interval `"report_interval"`. The program
looks up `"chords_report_interval"` (line 115). Started without a configuration file, the
program therefore stops with a `KeyError` before its first reading. `BuiltInConfigMissesInterval`
and `BuiltInConfigStops` prove this.

`device.reading()` (line 135) is not guarded by any exception handler, so a sensor error ends the
program; the model leaves the sensor call out (see below).

A rename table that sends two fields to one name is a configuration error the program does not
guard against. The cycle lemmas and `BuildRecord` therefore require an injective table.
`NewKeysInjective` proves that the table the program ships with (lines 73-83) is injective.

## Model

| member | source | states |
|---|---|---|
| Rename.MakeChordsVars | airqtochords.py:37-49 | the result has exactly one key, `"vars"`; a name is in `vars` iff some key of both the reading and the table is renamed to it, and its value is that key's value, copied unchanged; with no colliding keys the result is `Renamed`, whatever the iteration order |
| Rename.RenamedSpec | airqtochords.py:43-45 | a name is in the renaming iff some listed reading key is renamed to it; every listed key's value appears under its new name |
| Rename.UnlistedFieldDropped | airqtochords.py:38-45 | adding a reading field the table does not list changes nothing: unknown fields are dropped, not raised as errors |
| Rename.AbsentEntryProducesNothing | airqtochords.py:43-45 | a table entry whose key is absent from the reading contributes nothing |
| Rename.RenamedInsert | airqtochords.py:43-45 | adding one listed field to the reading adds exactly that value under its new name |
| Timestamp.PaddedValue | airqtochords.py:57 | zero padding to any width keeps the number: the padded numeral reads back as the number |
| Timestamp.Format | airqtochords.py:52-58 | the timestamp is at least 20 characters long and ends in `Z`, for any clock reading |
| Timestamp.FormatWellFormed | airqtochords.py:57 | for year 0..9999 and other fields 0..99 the timestamp has 20 characters, `-` at 4 and 7, `T` at 10, `:` at 13 and 16, `Z` at 19, and digits everywhere else |
| Timestamp.ParseFormat | airqtochords.py:57 | reading the digit groups of the timestamp back returns the six fields formatted |
| Timestamp.FormatParse | airqtochords.py:57 | every string of the timestamp shape is the timestamp of exactly the in-range fields it parses to |
| Signal.SignalVars | airqtochords.py:60-69 | the result has no key but `sig_dbm`; it has `sig_dbm` iff the inspector's dictionary has it, with the same value |
| Json.Lookup | airqtochords.py:96-115 | a subscript `v[key]` succeeds iff `v` is a dict holding `key`, and then yields its value; otherwise it fails with a KeyError naming the key, or a TypeError when `v` is not a dict |
| Startup.SelectConfig | airqtochords.py:87-94 | more than one argument gives usage and exit code 1; no argument selects the built-in configuration; exactly one names the configuration file |
| Startup.BuildOptions | airqtochords.py:101-109 | succeeds iff `inst_id` and `test` are configured, otherwise fails with a KeyError for the first one missing; `skey` is copied iff configured; `api_email` and `api_key` are each copied iff both are configured; every option is copied unchanged and no other key appears |
| Startup.LoadSettings | airqtochords.py:96-115 | succeeds iff every key the program reads is present in dicts; the settings hold the configured host, options, bus addresses, sample count and interval |
| Startup.Start | airqtochords.py:87-115 | more than one argument exits with code 1; otherwise the chosen document is the built-in configuration with no argument and the file with one, the program runs iff that document has every key it reads, running carries exactly the settings loaded from it, and a crash carries the KeyError or TypeError its loading fails with |
| Startup.BuiltInConfigMissesInterval | airqtochords.py:111-115 | loading the built-in configuration fails with a KeyError for `chords_report_interval` |
| Startup.BuiltInConfigStops | airqtochords.py:91-115 | started without arguments, the program stops with that KeyError |
| Cycle.NewKeysInjective | airqtochords.py:73-83 | the shipped rename table is injective, renames `time` to `at`, and never produces `sig_dbm` |
| Cycle.StampedSpec | airqtochords.py:136 | stamping sets `time` to the cycle's timestamp, replacing any sensor `time`, adds no other key and leaves every other field unchanged |
| Cycle.BuildRecord | airqtochords.py:134-148 | the record built in the program's order of steps, as successive map updates, equals the record specification `AssembledRecord` |
| Cycle.RecordLayout | airqtochords.py:145-148 | the record's keys are `vars` and the option keys; options keep their values; merging them leaves `vars` alone |
| Cycle.VarsKeys | airqtochords.py:136-145 | `vars` holds exactly the renamed listed fields of the time-stamped reading plus `sig_dbm` when the inspector reports it |
| Cycle.VarsValues | airqtochords.py:136-145 | the signal value wins on `sig_dbm`; every other listed reading field keeps its value under its new name |
| Cycle.TimeSentAsAt | airqtochords.py:136-139 | the cycle's timestamp reaches `vars` under the name the table gives `time` |
| Cycle.UnlistedSensorFieldIgnored | airqtochords.py:135-139 | a sensor field the table does not list has no effect on the record |
| Cycle.ConfiguredOptionsKeepVars | airqtochords.py:145-148 | options built from any configuration leave `vars` exactly as it was before the merge |
| Cycle.ExampleCycle | airqtochords.py:134-148 | a reading of `tvoc_ppb` 120, `eco2_ppm` 450 and `rh` 40.2 with no wireless signal becomes `vars` = {`tvoc`, `eco2`, `rh`, `at`} beside the options |

## Left out

- The CHORDS sender: `tochords.startSender`, `buildURI` and `submitURI` (lines 124, 151, 154). They and their retry queue live in the `pychords` library, which is not part of this model. The queue is a background thread.
- The sensor driver (`airq.airq`, `device.reading()`, lines 117-121 and 135) and the wireless inspector call (`iwconfig.iwconfig()`, line 65). These are hardware calls; their results are arbitrary parameters.
- The endless loop with `time.sleep` (lines 130-132), the wall clock `time.gmtime` (line 56), and `print` and flushing. These are timing and output; the clock reading is a parameter.
- Opening the configuration file and decoding JSON (lines 92 and 94). The configuration arrives as a decoded `Json` value.
- JSON lists are not represented, and JSON floating-point numbers are idealised as reals.
- Timestamp.Format: fields are non-negative. Python's sign-aware padding of negative numbers is not modelled, because `gmtime` never yields negative fields.
- Rename.MakeChordsVars: when two reading keys are renamed to one name, the value kept depends on the dict's insertion order. The model states only that the value is one of theirs.
- Cycle.BuildRecord: the reading is a map value, so the model does not capture that line 136 writes `time` into the very dict the sensor driver returned; and Dafny maps have no order, so the insertion order of the record's keys, which fixes the order of the parameters `buildURI` emits (line 151), is not modelled.
- Cycle.BuildRecord: requires an injective rename table. The program passes only its own table, which `NewKeysInjective` proves injective.
- Startup.SelectConfig: requires a program name in `argv`, which Python always provides to a script.
