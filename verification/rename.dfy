/** `make_chords_vars`: rename the fields of a reading through a table, drop
    the fields the table does not list, and wrap the result under "vars". */
module Rename {
  import opened Json

  /** Reading key `k` is listed in `table` and is renamed to `k2`. */
  predicate Renames(reading: map<string, Json>, table: map<string, string>, k: string, k2: string) {
    k in reading && k in table && table[k] == k2
  }

  /** No two keys present in the reading are renamed to the same wire name.
      Only then is the outcome independent of the dict's iteration order. */
  predicate NoCollisions(reading: map<string, Json>, table: map<string, string>) {
    forall k, k' :: k in reading && k' in reading && k in table && k' in table && k != k'
      ==> table[k] != table[k']
  }

  /** The table renames distinct keys to distinct names. */
  predicate Injective(table: map<string, string>) {
    forall k, k' :: k in table && k' in table && k != k' ==> table[k] != table[k']
  }

  lemma InjectiveHasNoCollisions(reading: map<string, Json>, table: map<string, string>)
    requires Injective(table)
    ensures NoCollisions(reading, table)
  {
  }

  /** The renamed fields, as an order-free specification. */
  function Renamed(reading: map<string, Json>, table: map<string, string>): map<string, Json>
    requires NoCollisions(reading, table)
  {
    map k | k in reading && k in table :: table[k] := reading[k]
  }

  /** A name is renamed-to exactly when some listed reading key is renamed to
      it, and it carries that key's value unchanged. */
  lemma RenamedSpec(reading: map<string, Json>, table: map<string, string>)
    requires NoCollisions(reading, table)
    ensures forall k2 :: k2 in Renamed(reading, table) <==> exists k :: Renames(reading, table, k, k2)
    ensures forall k :: k in reading && k in table ==>
              table[k] in Renamed(reading, table) && Renamed(reading, table)[table[k]] == reading[k]
  {
    var vars := Renamed(reading, table);
    forall k2 | k2 in vars ensures exists k :: Renames(reading, table, k, k2) {
      var k :| k in reading && k in table && table[k] == k2;
      assert Renames(reading, table, k, k2);
    }
  }

  /** The loop of `make_chords_vars`: the reading's entries are visited in an
      arbitrary order and every listed key is written under its new name. */
  method MakeChordsVars(oldHash: map<string, Json>, replaceKeys: map<string, string>)
    returns (record: map<string, Json>)
    ensures record.Keys == {"vars"} && record["vars"].Obj?
    ensures forall k2 :: k2 in record["vars"].fields <==> exists k :: Renames(oldHash, replaceKeys, k, k2)
    ensures forall k2 :: k2 in record["vars"].fields ==>
              exists k :: Renames(oldHash, replaceKeys, k, k2) && oldHash[k] == record["vars"].fields[k2]
    ensures NoCollisions(oldHash, replaceKeys) ==> record["vars"].fields == Renamed(oldHash, replaceKeys)
  {
    var newHash: map<string, Json> := map[];
    var todo := oldHash.Keys;
    ghost var done: set<string> := {};
    // for each written name, the reading key whose value it last received
    ghost var source: map<string, string> := map[];
    while todo != {}
      invariant todo !! done && todo + done == oldHash.Keys
      invariant source.Keys == newHash.Keys
      invariant forall k2 :: k2 in source ==>
                  source[k2] in done && Renames(oldHash, replaceKeys, source[k2], k2)
                  && newHash[k2] == oldHash[source[k2]]
      invariant forall k :: k in done && k in replaceKeys ==> replaceKeys[k] in newHash
      decreases todo
    {
      var oldKey :| oldKey in todo;
      if oldKey in replaceKeys {
        newHash := newHash[replaceKeys[oldKey] := oldHash[oldKey]];
        source := source[replaceKeys[oldKey] := oldKey];
      }
      todo := todo - {oldKey};
      done := done + {oldKey};
    }
    WitnessedRenaming(oldHash, replaceKeys, newHash, source);
    record := map["vars" := Obj(newHash)];
  }

  /** A map whose every entry is witnessed by a renamed reading key, and which
      holds every renamed key, is the renaming; without collisions it is `Renamed`. */
  lemma WitnessedRenaming(reading: map<string, Json>, table: map<string, string>,
                          vars: map<string, Json>, source: map<string, string>)
    requires source.Keys == vars.Keys
    requires forall k2 :: k2 in source ==>
               source[k2] in reading && Renames(reading, table, source[k2], k2) && vars[k2] == reading[source[k2]]
    requires forall k :: k in reading && k in table ==> table[k] in vars
    ensures forall k2 :: k2 in vars <==> exists k :: Renames(reading, table, k, k2)
    ensures forall k2 :: k2 in vars ==> exists k :: Renames(reading, table, k, k2) && reading[k] == vars[k2]
    ensures NoCollisions(reading, table) ==> vars == Renamed(reading, table)
  {
    forall k2 | k2 in vars
      ensures Renames(reading, table, source[k2], k2) && reading[source[k2]] == vars[k2]
    {
    }
    if NoCollisions(reading, table) {
      RenamedSpec(reading, table);
      var spec := Renamed(reading, table);
      forall k2 | k2 in spec ensures k2 in vars {
        var k :| Renames(reading, table, k, k2);
      }
      forall k2 | k2 in vars ensures k2 in spec && vars[k2] == spec[k2] {
        assert Renames(reading, table, source[k2], k2);
      }
    }
  }

  /** A reading field the table does not list is dropped without trace. */
  lemma UnlistedFieldDropped(reading: map<string, Json>, table: map<string, string>, k: string, v: Json)
    requires NoCollisions(reading, table) && k !in table
    ensures NoCollisions(reading[k := v], table)
    ensures Renamed(reading[k := v], table) == Renamed(reading, table)
  {
    RenamedSpec(reading, table);
    RenamedSpec(reading[k := v], table);
    var before, after := Renamed(reading, table), Renamed(reading[k := v], table);
    assert after.Keys == before.Keys by {
      forall k2 | k2 in after ensures k2 in before {
        var j :| Renames(reading[k := v], table, j, k2);
        assert Renames(reading, table, j, k2);
      }
      forall k2 | k2 in before ensures k2 in after {
        var j :| Renames(reading, table, j, k2);
        assert Renames(reading[k := v], table, j, k2);
      }
    }
    assert forall k2 :: k2 in after ==> after[k2] == before[k2] by {
      forall k2 | k2 in after ensures after[k2] == before[k2] {
        var j :| Renames(reading[k := v], table, j, k2);
      }
    }
  }

  /** A table entry whose key is absent from the reading produces nothing. */
  lemma AbsentEntryProducesNothing(reading: map<string, Json>, table: map<string, string>, k: string, k2: string)
    requires NoCollisions(reading, table) && k !in reading
    ensures NoCollisions(reading, table[k := k2])
    ensures Renamed(reading, table[k := k2]) == Renamed(reading, table)
  {
    RenamedSpec(reading, table);
    RenamedSpec(reading, table[k := k2]);
    var before, after := Renamed(reading, table), Renamed(reading, table[k := k2]);
    assert after.Keys == before.Keys by {
      forall x | x in after ensures x in before {
        var j :| Renames(reading, table[k := k2], j, x);
        assert Renames(reading, table, j, x);
      }
      forall x | x in before ensures x in after {
        var j :| Renames(reading, table, j, x);
        assert Renames(reading, table[k := k2], j, x);
      }
    }
    assert forall x :: x in after ==> after[x] == before[x] by {
      forall x | x in after ensures after[x] == before[x] {
        var j :| Renames(reading, table[k := k2], j, x);
      }
    }
  }

  /** Renaming a reading with one more listed field adds that field under its
      new name. */
  lemma RenamedInsert(reading: map<string, Json>, table: map<string, string>, k: string, v: Json)
    requires NoCollisions(reading[k := v], table) && k in table
    ensures NoCollisions(reading, table)
    ensures Renamed(reading[k := v], table) == Renamed(reading, table)[table[k] := v]
  {
    RenamedSpec(reading, table);
    RenamedSpec(reading[k := v], table);
    var before, after := Renamed(reading, table), Renamed(reading[k := v], table);
    var expected := before[table[k] := v];
    forall x | x in after ensures x in expected && after[x] == expected[x] {
      var j :| Renames(reading[k := v], table, j, x);
      if j != k {
        assert Renames(reading, table, j, x);
      }
    }
    forall x | x in expected ensures x in after {
      if x != table[k] {
        var j :| Renames(reading, table, j, x);
        assert Renames(reading[k := v], table, j, x);
      }
    }
  }

  lemma RenamedEmpty(table: map<string, string>)
    ensures Renamed(map[], table) == map[]
  {
  }
}
