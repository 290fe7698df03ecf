/** The start of the program's main block: choosing the configuration from
    the command line, reading the settings out of the decoded document, and
    building the delivery options. Reading files and decoding JSON are left to
    the caller: a configuration arrives as an already decoded `Json` value. */
module Startup {
  import opened Json

  /** What the command line selects. */
  datatype ConfigSource =
    | Usage(exitCode: int)   // usage message, then exit
    | BuiltIn                // the configuration document embedded in the program
    | File(path: string)     // the configuration file named on the command line

  /** The argument check: `argv[0]` is the program, at most one argument follows.
      Python always sets `argv[0]` for a script, hence the precondition. */
  function SelectConfig(argv: seq<string>): (r: ConfigSource)
    requires |argv| >= 1
    ensures r.Usage? <==> |argv| > 2
    ensures r.Usage? ==> r.exitCode == 1
    ensures r.BuiltIn? <==> |argv| == 1
    ensures r.File? <==> |argv| == 2
    ensures r.File? ==> r.path == argv[1]
  {
    if |argv| > 2 then Usage(1)
    else if |argv| == 1 then BuiltIn
    else File(argv[1])
  }

  /** The configuration used when no file is named. */
  const DefaultConfig: Json := Obj(map["chords" := Obj(DefaultChords), "airq" := Obj(DefaultAirq)])

  const DefaultChords: map<string, Json> :=
    map[
      "skey" := Str("secret_key"),
      "host" := Str("chords_host.com"),
      "enabled" := Bool(true),
      "inst_id" := Str("1"),
      "test" := Bool(false)]

  const DefaultAirq: map<string, Json> :=
    map[
      "ccs811_i2c" := Int(91),
      "bme280_i2c" := Int(119),
      "tmp117_i2c" := Int(72),
      "ccs811_n_samples" := Int(60),
      "report_interval" := Int(60)]

  const OptionKeys: set<string> := {"inst_id", "test", "skey", "api_email", "api_key"}

  /** The options merged into every record: `inst_id` and `test` always, `skey`
      when configured, and the credential pair only when both halves are. */
  function BuildOptions(chords: map<string, Json>): (r: Result<map<string, Json>>)
    ensures r.Success? <==> "inst_id" in chords && "test" in chords
    ensures r.Failure? ==> r.error == MissingKey(if "inst_id" in chords then "test" else "inst_id")
    ensures r.Success? ==> r.value.Keys <= OptionKeys
    ensures r.Success? ==> "inst_id" in r.value && "test" in r.value
    ensures r.Success? ==> ("skey" in r.value <==> "skey" in chords)
    ensures r.Success? ==> ("api_email" in r.value <==> "api_email" in chords && "api_key" in chords)
    ensures r.Success? ==> ("api_key" in r.value <==> "api_email" in chords && "api_key" in chords)
    ensures r.Success? ==> forall k :: k in r.value ==> k in chords && r.value[k] == chords[k]
  {
    if "inst_id" !in chords then Failure(MissingKey("inst_id"))
    else if "test" !in chords then Failure(MissingKey("test"))
    else
      var options := map["inst_id" := chords["inst_id"], "test" := chords["test"]];
      var options := if "skey" in chords then options["skey" := chords["skey"]] else options;
      var options :=
        if "api_email" in chords && "api_key" in chords
        then options["api_email" := chords["api_email"]]["api_key" := chords["api_key"]]
        else options;
      Success(options)
  }

  /** The values the program takes from its configuration. */
  datatype Settings = Settings(
    host: Json,
    options: map<string, Json>,
    ccs811Address: Json,
    bme280Address: Json,
    tmp117Address: Json,
    ccs811Samples: Json,
    reportInterval: Json)

  const AirqKeys: seq<string> :=
    ["ccs811_i2c", "bme280_i2c", "tmp117_i2c", "ccs811_n_samples", "chords_report_interval"]

  /** Every lookup the program makes into its configuration succeeds. */
  predicate Complete(config: Json) {
    && config.Obj? && "airq" in config.fields && "chords" in config.fields
    && config.fields["chords"].Obj?
    && (forall k :: k in ["host", "inst_id", "test"] ==> k in config.fields["chords"].fields)
    && config.fields["airq"].Obj?
    && (forall k :: k in AirqKeys ==> k in config.fields["airq"].fields)
  }

  /** The configuration lookups, in the order the program makes them; the first
      one that fails is the exception that ends the program. */
  function LoadSettings(config: Json): (r: Result<Settings>)
    ensures r.Success? <==> Complete(config)
    ensures r.Success? ==>
              var chords := config.fields["chords"].fields;
              var airq := config.fields["airq"].fields;
              && r.value.host == chords["host"]
              && BuildOptions(chords) == Success(r.value.options)
              && r.value.ccs811Address == airq["ccs811_i2c"]
              && r.value.bme280Address == airq["bme280_i2c"]
              && r.value.tmp117Address == airq["tmp117_i2c"]
              && r.value.ccs811Samples == airq["ccs811_n_samples"]
              && r.value.reportInterval == airq["chords_report_interval"]
  {
    var airq :- Lookup(config, "airq");
    var chords :- Lookup(config, "chords");
    var host :- Lookup(chords, "host");
    var options :- BuildOptions(chords.fields);
    var ccs811 :- Lookup(airq, "ccs811_i2c");
    var bme280 :- Lookup(airq, "bme280_i2c");
    var tmp117 :- Lookup(airq, "tmp117_i2c");
    var samples :- Lookup(airq, "ccs811_n_samples");
    var interval :- Lookup(airq, "chords_report_interval");
    Success(Settings(host, options, ccs811, bme280, tmp117, samples, interval))
  }

  /** How the start of the program ends. */
  datatype Launch =
    | Exit(code: int)      // the usage error
    | Crash(error: Error)  // an uncaught exception while reading the configuration
    | Running(settings: Settings)

  /** Startup from the command line; `fileDocument` is what the named file decodes to. */
  function Start(argv: seq<string>, fileDocument: Json): (r: Launch)
    requires |argv| >= 1
    ensures |argv| > 2 ==> r == Exit(1)
    ensures |argv| <= 2 ==> !r.Exit?
    ensures |argv| == 2 ==> (r.Running? <==> Complete(fileDocument))
    ensures |argv| <= 2 ==>
              var doc := if |argv| == 1 then DefaultConfig else fileDocument;
              && (r.Running? <==> Complete(doc))
              && (r.Running? ==> LoadSettings(doc) == Success(r.settings))
              && (r.Crash? ==> LoadSettings(doc) == Failure(r.error))
  {
    match SelectConfig(argv)
    case Usage(code) => Exit(code)
    case BuiltIn =>
      (match LoadSettings(DefaultConfig)
       case Success(s) => Running(s)
       case Failure(e) => Crash(e))
    case File(_) =>
      (match LoadSettings(fileDocument)
       case Success(s) => Running(s)
       case Failure(e) => Crash(e))
  }

  /** The built-in configuration names its interval "report_interval", but the
      program looks up "chords_report_interval": loading it fails with a KeyError. */
  lemma BuiltInConfigMissesInterval()
    ensures LoadSettings(DefaultConfig) == Failure(MissingKey("chords_report_interval"))
  {
    assert "host" in DefaultChords && "inst_id" in DefaultChords && "test" in DefaultChords;
    assert "ccs811_i2c" in DefaultAirq && "bme280_i2c" in DefaultAirq;
    assert "tmp117_i2c" in DefaultAirq && "ccs811_n_samples" in DefaultAirq;
    assert "chords_report_interval" !in DefaultAirq;
  }

  /** Started without a configuration file, the program stops with that
      KeyError before its first reading. */
  lemma BuiltInConfigStops(program: string, fileDocument: Json)
    ensures Start([program], fileDocument) == Crash(MissingKey("chords_report_interval"))
  {
    BuiltInConfigMissesInterval();
  }
}
