/**
 Migration p18a: city names move from tbl_player_info into a lookup table, and back.
 A column that does not exist at some point of the migration is None.
 */
module CityMigration {
  import opened Tables

  type PlayerId = string
  type CityId = int

  type Names = map<PlayerId, Option<string>>
  type Keys = map<PlayerId, Option<CityId>>
  type Cities = map<CityId, string>

  ghost predicate UniqueNames(cities: Cities) {
    forall a, b :: a in cities && b in cities && cities[a] == cities[b] ==> a == b
  }

  // Every player points to the city of its name, and a NULL name is a NULL key.
  ghost predicate PointsTo(names: Names, fk: Keys, cities: Cities) {
    && fk.Keys == names.Keys
    && forall p :: p in names ==>
         match names[p]
         case None => fk[p] == None
         case Some(n) => fk[p].Some? && fk[p].value in cities && cities[fk[p].value] == n
  }

  // The lookup table holds each name in use once and nothing else.
  ghost predicate Normalised(names: Names, fk: Keys, cities: Cities) {
    && UniqueNames(cities)
    && PointsTo(names, fk, cities)
    && (forall c :: c in cities ==> exists p :: p in fk && fk[p] == Some(c))
  }

  ghost predicate Restored(fk: Keys, cities: Cities, names: Names) {
    && names.Keys == fk.Keys
    && forall p :: p in fk ==>
         names[p] == if fk[p].Some? && fk[p].value in cities then Some(cities[fk[p].value]) else None
  }

  // downgrade after upgrade gives every player its own city name back, NULLs included.
  lemma RoundTrip(names: Names, fk: Keys, cities: Cities, back: Names)
    requires Normalised(names, fk, cities) && Restored(fk, cities, back)
    ensures back == names
  {
    forall p | p in names ensures back[p] == names[p] {
      assert p in fk;
    }
  }

  // Between them, a non-NULL key refers to exactly one city, and that city has the old name.
  lemma KeyIsTheCity(names: Names, fk: Keys, cities: Cities, p: PlayerId, c: CityId)
    requires Normalised(names, fk, cities) && p in names && names[p].Some?
    ensures fk[p] == Some(c) <==> c in cities && cities[c] == names[p].value
  {
    assert p in fk && fk[p].value in cities;
    if c in cities && cities[c] == names[p].value {
      SameCity(cities, c, fk[p].value);
    }
  }

  lemma SameCity(cities: Cities, a: CityId, b: CityId)
    requires UniqueNames(cities) && a in cities && b in cities && cities[a] == cities[b]
    ensures a == b
  {
  }

  function NamesInUse(names: Names): (used: set<string>)
    ensures forall n :: n in used <==> exists p :: p in names && names[p] == Some(n)
  {
    set p | p in names && names[p].Some? :: names[p].value
  }

  // The other way round: upgrading again after a downgrade rebuilds the lookup table from the names
  // in use, so it brings back the same city names exactly when no city was unreferenced.
  lemma UnreferencedCitiesAreLost(fk: Keys, cities: Cities, names: Names, fk': Keys, cities': Cities)
    requires Restored(fk, cities, names) && Normalised(names, fk', cities') && UniqueNames(cities)
    requires forall p :: p in fk && fk[p].Some? ==> fk[p].value in cities
    ensures cities'.Values == cities.Values <==> forall c :: c in cities ==> exists p :: p in fk && fk[p] == Some(c)
  {
    forall n | n in cities'.Values ensures n in cities.Values {
      var c := KeyOf(cities', n);
      var p :| p in fk' && fk'[p] == Some(c);
      assert p in names && names[p] == Some(n);
      assert fk[p].value in cities;
    }
    forall c | c in cities
      ensures cities[c] in cities'.Values <==> exists p :: p in fk && fk[p] == Some(c)
    {
      if p :| p in fk && fk[p] == Some(c) {
        assert names[p] == Some(cities[c]);
        assert fk'[p].value in cities';
      }
      if cities[c] in cities'.Values {
        var c' := KeyOf(cities', cities[c]);
        var p :| p in fk' && fk'[p] == Some(c');
        assert p in names && names[p] == Some(cities[c]);
        assert p in fk && fk[p].value in cities;
        SameCity(cities, fk[p].value, c);
      }
    }
    if forall c :: c in cities ==> exists p :: p in fk && fk[p] == Some(c) {
      forall n | n in cities.Values ensures n in cities'.Values {
        var c := KeyOf(cities, n);
      }
      assert cities'.Values == cities.Values;
    }
    if cities'.Values == cities.Values {
      forall c | c in cities ensures exists p :: p in fk && fk[p] == Some(c) {
        assert cities[c] in cities.Values;
      }
    }
  }

  // A city that no player has is gone after a downgrade and an upgrade.
  lemma ACityWithoutPlayers(fk': Keys, cities': Cities)
    requires Normalised(map[], fk', cities')
    ensures Restored(map[], map[1 := "Rome"], map[]) && "Rome" !in cities'.Values
  {
    assert fk'.Keys == {};
    assert forall c :: c !in cities';
  }

  class PlayerInfoTable {
    var cityName: Option<Names>
    var fkCity: Option<Keys>
    var cities: Option<Cities>

    constructor (names: Names)
      ensures cityName == Some(names) && fkCity == None && cities == None
    {
      cityName, fkCity, cities := Some(names), None, None;
    }

    method Upgrade()
      requires cityName.Some? && fkCity.None? && cities.None?
      modifies this
      ensures cityName.None? && fkCity.Some? && cities.Some?
      ensures Normalised(old(cityName).value, fkCity.value, cities.value)
    {
      var names := cityName.value;
      // 1, 2: the lookup table and the new column
      cities := Some(map[]);
      fkCity := Some(map p | p in names :: None);
      // 3: INSERT ... SELECT DISTINCT ... ON CONFLICT DO NOTHING
      var table := InsertDistinct(NamesInUse(names));
      cities := Some(table);
      // 4: UPDATE ... FROM tbl_cities WHERE city_name = city_name
      fkCity := Some(map p | p in names :: CityNamed(table, names[p]));
      forall p | p in names ensures
          match names[p]
          case None => fkCity.value[p] == None
          case Some(n) => fkCity.value[p].Some? && fkCity.value[p].value in table && table[fkCity.value[p].value] == n
      {
        if names[p].Some? {
          assert names[p].value in table.Values;
        }
      }
      forall c | c in table ensures exists p :: p in fkCity.value && fkCity.value[p] == Some(c) {
        assert table[c] in NamesInUse(names);
        var p :| p in names && names[p] == Some(table[c]);
        assert fkCity.value[p] == Some(c);
      }
      // 7: the old column goes
      cityName := None;
    }

    method Downgrade()
      requires cityName.None? && fkCity.Some? && cities.Some?
      modifies this
      ensures cityName.Some? && fkCity.None? && cities.None?
      ensures Restored(old(fkCity).value, old(cities).value, cityName.value)
    {
      var fk, table := fkCity.value, cities.value;
      cityName := Some(map p | p in fk :: None);
      cityName := Some(map p | p in fk ::
        if fk[p].Some? && fk[p].value in table then Some(table[fk[p].value]) else cityName.value[p]);
      fkCity := None;
      cities := None;
    }

    method UpgradeThenDowngrade()
      requires cityName.Some? && fkCity.None? && cities.None?
      modifies this
      ensures cityName == old(cityName) && fkCity.None? && cities.None?
    {
      ghost var names := cityName.value;
      Upgrade();
      ghost var fk, table := fkCity.value, cities.value;
      Downgrade();
      RoundTrip(names, fk, table, cityName.value);
    }
  }

  // The join of the UPDATE: the city with the player's name, if there is one.
  function CityNamed(cities: Cities, name: Option<string>): (c: Option<CityId>)
    requires UniqueNames(cities)
    ensures c.Some? ==> name.Some? && c.value in cities && cities[c.value] == name.value
    ensures c.None? ==> name.None? || name.value !in cities.Values
  {
    if name.Some? && name.value in cities.Values then
      assert exists c :: c in cities && cities[c] == name.value by { var c := KeyOf(cities, name.value); }
      var c :| c in cities && cities[c] == name.value;
      Some(c)
    else None
  }

  // SERIAL ids from 1, one a name, in whatever order the names come.
  method InsertDistinct(names: set<string>) returns (table: Cities)
    ensures UniqueNames(table) && table.Values == names
  {
    table := map[];
    var rest := names;
    var serial := 1;
    while rest != {}
      invariant rest <= names && UniqueNames(table) && table.Values == names - rest
      invariant forall c :: c in table ==> c < serial
      decreases rest
    {
      var n :| n in rest;
      ghost var before := table;
      assert n !in before.Values;
      table := table[serial := n];
      assert table.Values == before.Values + {n} by {
        assert serial in table && table[serial] == n;
        forall v | v in before.Values ensures v in table.Values {
          var c := KeyOf(before, v);
          assert table[c] == v;
        }
      }
      assert forall c :: c in before ==> before[c] in before.Values && before[c] != n;
      rest := rest - {n};
      serial := serial + 1;
    }
  }
}
