/** One pass of the collection loop after the sensor has been read: stamp the
    reading with the time, rename its fields, add the signal strength and the
    delivery options. The reading, the clock and the inspector's dictionary
    are parameters. A rename table that sends two fields to one name is a
    configuration error the program does not handle; the table it ships with,
    `NewKeys`, is injective. */
module Cycle {
  import opened Json
  import opened Rename
  import opened Timestamp
  import opened Signal
  import Startup

  /** The table from reading fields to CHORDS variable names. */
  const NewKeys: map<string, string> :=
    map[
      "time" := "at",
      "tvoc_ppb" := "tvoc",
      "tvoc_std" := "tvoc_std",
      "eco2_ppm" := "eco2",
      "eco2_std" := "eco2_std",
      "pres_mb" := "pres",
      "tdry_degc" := "tdry",
      "rh" := "rh",
      "n" := "n"]

  lemma NewKeysInjective()
    ensures Injective(NewKeys)
    ensures NewKeys["time"] == "at"
    ensures SigDbm !in NewKeys.Values
  {
  }

  /** The reading as renamed: stamped with the time first. */
  function Stamped(reading: map<string, Json>, now: string): map<string, Json> {
    reading["time" := Str(now)]
  }

  /** Stamping sets `time` to the timestamp, overwriting any `time` the sensor
      reported, and leaves every other field of the reading as it was. */
  lemma StampedSpec(reading: map<string, Json>, now: string)
    ensures "time" in Stamped(reading, now) && Stamped(reading, now)["time"] == Str(now)
    ensures Stamped(reading, now).Keys == reading.Keys + {"time"}
    ensures forall k :: k in reading && k != "time" ==> Stamped(reading, now)[k] == reading[k]
  {
  }

  /** The variables of one cycle: the stamped reading renamed, overridden by
      the signal variables. */
  function Vars(table: map<string, string>, reading: map<string, Json>, now: string,
                iw: map<string, Json>): map<string, Json>
    requires Injective(table)
  {
    InjectiveHasNoCollisions(Stamped(reading, now), table);
    Renamed(Stamped(reading, now), table) + SignalVars(iw)
  }

  /** The record one cycle hands to the sender, as a specification; `now` is
      the formatted time of the cycle. */
  function AssembledRecord(table: map<string, string>, reading: map<string, Json>, now: string,
                           iw: map<string, Json>, options: map<string, Json>): map<string, Json>
    requires Injective(table)
  {
    map["vars" := Obj(Vars(table, reading, now, iw))] + options
  }

  /** The steps of the loop body, each updating the record in turn. */
  method BuildRecord(table: map<string, string>, reading: map<string, Json>, clock: UtcTime,
                     iw: map<string, Json>, options: map<string, Json>)
    returns (record: map<string, Json>)
    requires Injective(table)
    ensures record == AssembledRecord(table, reading, Format(clock), iw, options)
  {
    var data := reading["time" := Str(Format(clock))];
    record := MakeChordsVars(data, table);
    InjectiveHasNoCollisions(data, table);
    var iwVars := SignalVars(iw);
    OnlyVars(record, Obj(record["vars"].fields + iwVars));
    record := record["vars" := Obj(record["vars"].fields + iwVars)];
    record := record + options;
  }

  lemma OnlyVars(record: map<string, Json>, vars: Json)
    requires record.Keys == {"vars"}
    ensures record["vars" := vars] == map["vars" := vars]
  {
  }

  /** The record's top level: the options beside "vars", which they leave alone. */
  lemma RecordLayout(table: map<string, string>, reading: map<string, Json>, now: string,
                     iw: map<string, Json>, options: map<string, Json>)
    requires Injective(table) && "vars" !in options
    ensures var record := AssembledRecord(table, reading, now, iw, options);
            && record.Keys == {"vars"} + options.Keys
            && (forall k :: k in options ==> record[k] == options[k])
            && record["vars"] == Obj(Vars(table, reading, now, iw))
  {
  }

  /** The variables sent are exactly the renamed listed fields of the stamped
      reading and the signal strength when the inspector reports one. */
  lemma VarsKeys(table: map<string, string>, reading: map<string, Json>, now: string,
                 iw: map<string, Json>)
    requires Injective(table)
    ensures forall k2 :: k2 in Vars(table, reading, now, iw) <==>
              (k2 == SigDbm && SigDbm in iw) || exists k :: Renames(Stamped(reading, now), table, k, k2)
  {
    var data := Stamped(reading, now);
    InjectiveHasNoCollisions(data, table);
    RenamedSpec(data, table);
    assert Vars(table, reading, now, iw) == Renamed(data, table) + SignalVars(iw);
  }

  /** The values sent: the signal strength wins on its name; every other
      listed field of the reading keeps its value under its new name. */
  lemma VarsValues(table: map<string, string>, reading: map<string, Json>, now: string,
                   iw: map<string, Json>)
    requires Injective(table)
    ensures SigDbm in iw ==> Vars(table, reading, now, iw)[SigDbm] == iw[SigDbm]
    ensures forall k :: k in reading && k in table && k != "time" && table[k] != SigDbm
              ==> table[k] in Vars(table, reading, now, iw) && Vars(table, reading, now, iw)[table[k]] == reading[k]
  {
    var data := Stamped(reading, now);
    InjectiveHasNoCollisions(data, table);
    RenamedSpec(data, table);
    var renamed := Renamed(data, table);
    var vars := Vars(table, reading, now, iw);
    assert vars == renamed + SignalVars(iw);
    forall k | k in reading && k in table && k != "time" && table[k] != SigDbm
      ensures table[k] in vars && vars[table[k]] == reading[k]
    {
      assert data[k] == reading[k];
      assert table[k] in renamed && renamed[table[k]] == data[k];
      assert table[k] !in SignalVars(iw);
    }
  }

  /** The time stamped on the reading reaches CHORDS under the name the table
      gives "time": "at" for `NewKeys`. */
  lemma TimeSentAsAt(table: map<string, string>, reading: map<string, Json>, now: string,
                     iw: map<string, Json>, options: map<string, Json>)
    requires Injective(table) && "time" in table && table["time"] != SigDbm && "vars" !in options
    ensures var vars := AssembledRecord(table, reading, now, iw, options)["vars"].fields;
            table["time"] in vars && vars[table["time"]] == Str(now)
  {
    var data := Stamped(reading, now);
    InjectiveHasNoCollisions(data, table);
    RenamedSpec(data, table);
    assert Renamed(data, table)[table["time"]] == data["time"];
    RecordLayout(table, reading, now, iw, options);
  }

  /** A sensor field the table does not list never reaches CHORDS. */
  lemma UnlistedSensorFieldIgnored(table: map<string, string>, reading: map<string, Json>, now: string,
                                   iw: map<string, Json>, options: map<string, Json>, k: string, v: Json)
    requires Injective(table) && k !in table
    ensures AssembledRecord(table, reading[k := v], now, iw, options)
            == AssembledRecord(table, reading, now, iw, options)
  {
    var data := Stamped(reading, now);
    InjectiveHasNoCollisions(data, table);
    if k != "time" {
      assert Stamped(reading[k := v], now) == data[k := v];
      UnlistedFieldDropped(data, table, k, v);
    } else {
      assert Stamped(reading[k := v], now) == data;
    }
  }

  /** Merging options built from a configuration leaves "vars" as it was. */
  lemma ConfiguredOptionsKeepVars(table: map<string, string>, chords: map<string, Json>,
                                  reading: map<string, Json>, now: string, iw: map<string, Json>)
    requires Injective(table) && Startup.BuildOptions(chords).Success?
    ensures var options := Startup.BuildOptions(chords).value;
            AssembledRecord(table, reading, now, iw, options)["vars"]
            == AssembledRecord(table, reading, now, iw, map[])["vars"]
  {
    assert "vars" !in Startup.OptionKeys;
  }

  /** A reading of gas concentrations and humidity, with no wireless signal,
      becomes exactly these four variables beside the options. */
  lemma ExampleCycle(now: string, options: map<string, Json>)
    requires "vars" !in options
    ensures var reading := map["tvoc_ppb" := Int(120), "eco2_ppm" := Int(450), "rh" := Float(40.2)];
            Injective(NewKeys) &&
            AssembledRecord(NewKeys, reading, now, map[], options)
              == map["vars" := Obj(map["tvoc" := Int(120), "eco2" := Int(450), "rh" := Float(40.2),
                                       "at" := Str(now)])] + options
  {
    assert NewKeys["tvoc_ppb"] == "tvoc" && NewKeys["eco2_ppm"] == "eco2";
    assert NewKeys["rh"] == "rh" && NewKeys["time"] == "at";
    NewKeysInjective();
    ExampleRenaming(NewKeys, now);
  }

  /** The renaming behind `ExampleCycle`, for any injective table that agrees
      with `NewKeys` on the four fields involved: the reading is renamed one
      field at a time, in the order it is built. */
  lemma ExampleRenaming(table: map<string, string>, now: string)
    requires Injective(table)
    requires "tvoc_ppb" in table && table["tvoc_ppb"] == "tvoc"
    requires "eco2_ppm" in table && table["eco2_ppm"] == "eco2"
    requires "rh" in table && table["rh"] == "rh"
    requires "time" in table && table["time"] == "at"
    ensures var reading := map["tvoc_ppb" := Int(120), "eco2_ppm" := Int(450), "rh" := Float(40.2)];
            Vars(table, reading, now, map[])
              == map["tvoc" := Int(120), "eco2" := Int(450), "rh" := Float(40.2), "at" := Str(now)]
  {
    var r0: map<string, Json> := map[];
    var r1 := r0["tvoc_ppb" := Int(120)];
    var r2 := r1["eco2_ppm" := Int(450)];
    var r3 := r2["rh" := Float(40.2)];
    var data := r3["time" := Str(now)];
    assert Renamed(r1, table) == map["tvoc" := Int(120)] by {
      InjectiveHasNoCollisions(r1, table);
      RenamedEmpty(table);
      RenamedInsert(r0, table, "tvoc_ppb", Int(120));
    }
    assert Renamed(r2, table) == map["tvoc" := Int(120), "eco2" := Int(450)] by {
      InjectiveHasNoCollisions(r2, table);
      RenamedInsert(r1, table, "eco2_ppm", Int(450));
    }
    assert Renamed(r3, table) == map["tvoc" := Int(120), "eco2" := Int(450), "rh" := Float(40.2)] by {
      InjectiveHasNoCollisions(r3, table);
      RenamedInsert(r2, table, "rh", Float(40.2));
    }
    assert Renamed(data, table)
           == map["tvoc" := Int(120), "eco2" := Int(450), "rh" := Float(40.2), "at" := Str(now)] by {
      InjectiveHasNoCollisions(data, table);
      RenamedInsert(r3, table, "time", Str(now));
    }
    assert Stamped(r3, now) == data;
    InjectiveHasNoCollisions(data, table);
    assert SignalVars(map[]) == map[];
  }
}
