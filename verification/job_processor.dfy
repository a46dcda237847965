/**
 ScrapeJobProcessor.process over the lookup tables behind it: every foreign key it writes is
 resolved first, positions through a cache shared by all jobs of the process.
 */
module JobProcessor {
  import opened Tables
  import opened LookupTable
  import opened PositionCache

  datatype InfoRow = InfoRow(
    fkCountryBirth: Option<string>, fkCity: Option<int>, fkNatTeam: Option<string>, fkYouthNatTeam: Option<string>,
    fkTeam: Option<string>, positions: seq<Option<int>>)

  datatype Store = Store(
    countries: set<string>, cities: Lookup, positions: Lookup, teams: map<string, Option<string>>,
    info: map<string, InfoRow>, photos: map<string, string>, citizenships: set<(string, string)>)

  datatype Raw = Raw(
    playerId: string, fullName: Option<string>,
    countryBirthName: Option<string>, fkCountryBirth: Option<string>,
    nationalTeamName: Option<string>, fkNatTeam: Option<string>,
    youthNatTeamName: Option<string>, fkYouthNatTeam: Option<string>,
    citizenshipName: Option<string>, fkCitizenship: Option<string>,
    cityName: Option<string>, fkCity: Option<int>,
    fkTeam: Option<string>, clubUrl: Option<string>, photoUrl: Option<string>,
    positions: seq<Option<string>>)

  // ---------- Referential integrity ----------

  ghost predicate RowOk(s: Store, r: InfoRow) {
    && (r.fkCountryBirth.Some? ==> r.fkCountryBirth.value in s.countries)
    && (r.fkNatTeam.Some? ==> r.fkNatTeam.value in s.countries)
    && (r.fkYouthNatTeam.Some? ==> r.fkYouthNatTeam.value in s.countries)
    && (r.fkCity.Some? ==> r.fkCity.value in s.cities.ids.Values)
    && (r.fkTeam.Some? ==> r.fkTeam.value in s.teams)
    && (forall i :: 0 <= i < |r.positions| && r.positions[i].Some? ==> r.positions[i].value in s.positions.ids.Values)
  }

  ghost predicate StoreOk(s: Store) {
    && LookupOk(s.cities) && LookupOk(s.positions)
    && (forall p :: p in s.info ==> RowOk(s, s.info[p]))
    && (forall c :: c in s.citizenships ==> c.1 in s.countries)
  }

  // Tables only grow between the reads and the writes of one job.
  ghost predicate Grows(s: Store, s': Store) {
    s.countries <= s'.countries && Extends(s.cities, s'.cities) && Extends(s.positions, s'.positions)
    && s.teams.Keys <= s'.teams.Keys
  }

  lemma GrowthKeepsRow(s: Store, s': Store, r: InfoRow)
    requires RowOk(s, r) && Grows(s, s')
    ensures RowOk(s', r)
  {
    ValuesGrow(s.cities, s'.cities);
    ValuesGrow(s.positions, s'.positions);
  }

  // ---------- Country resolution ----------

  function LookedUp(name: Option<string>, parsed: Option<string>, names: map<string, string>): Option<string> {
    match name
    case None => parsed
    case Some(n) => if n in names then Some(names[n]) else None
  }

  function Validated(c: Option<string>, valid: set<string>): (r: Option<string>)
    ensures r.Some? ==> r.value in valid
    ensures r.None? <==> c.None? || c.value !in valid
  {
    if c.Some? && c.value in valid then c else None
  }

  class Processor {
    const names: map<string, string>   // country name -> country_id
    const valid: set<string>           // snapshot of the country ids
    var cache: map<string, int>
    var store: Store

    constructor (names: map<string, string>, store: Store)
      ensures this.names == names && this.store == store && cache == map[] && valid == store.countries
    {
      this.names, this.store, this.cache, this.valid := names, store, map[], store.countries;
    }

    ghost predicate Valid()
      reads this
    {
      StoreOk(store) && CacheOk(cache, store.positions) && valid <= store.countries
    }

    method UpsertPosition(code: string) returns (id: int)
      modifies this`store
      ensures store == old(store).(positions := Upserted(old(store).positions, code))
      ensures id == UpsertId(old(store).positions, code)
    {
      var t := store.positions;
      var ids := t.ids;
      if code !in ids {
        ids := ids[code := t.next];
      }
      store := store.(positions := Lookup(ids, t.next + 1));
      id := store.positions.ids[code];
    }

    method UpsertCity(name: string) returns (id: int)
      modifies this`store
      ensures store == old(store).(cities := Upserted(old(store).cities, name))
      ensures id == UpsertId(old(store).cities, name)
    {
      var t := store.cities;
      var ids := t.ids;
      if name !in ids {
        ids := ids[name := t.next];
      }
      store := store.(cities := Lookup(ids, t.next + 1));
      id := store.cities.ids[name];
    }

    // A team that is there already keeps its URL.
    method UpsertTeamStub(team: string, clubUrl: Option<string>)
      modifies this`store
      ensures store == old(store).(teams := store.teams)
      ensures store.teams == if team in old(store).teams then old(store).teams else old(store).teams[team := clubUrl]
    {
      if team !in store.teams {
        store := store.(teams := store.teams[team := clubUrl]);
      }
    }

    // One code: from the cache, or from the table and then into the cache.
    method ResolvePosition(code: string) returns (id: int)
      modifies this
      ensures forall ids :: Resolved(ids + [id], cache, store.positions) ==
                            ResolveOne(Resolved(ids, old(cache), old(store).positions), code)
      ensures store == old(store).(positions := store.positions)
    {
      if code !in cache {
        id := UpsertPosition(code);
        cache := cache[code := id];
      }
      id := cache[code];
    }

    // Each code gets the id that upsert_position would return for it, cached or not.
    method ResolvePositions(codes: seq<Option<string>>) returns (ids: seq<Option<int>>)
      requires CacheOk(cache, store.positions)
      modifies this
      ensures var r := Resolved(Given(ids), cache, store.positions);
        && r == ResolveEach(old(cache), old(store).positions, Given(codes))
        && NamesAndCache(old(cache), old(store).positions, Given(codes), r)
      ensures AllResolved(store.positions, codes, ids)
      ensures store == old(store).(positions := store.positions)
    {
      ghost var c0, s0 := cache, store;
      ids := [];
      for k := 0 to |codes|
        invariant Resolving(c0, s0.positions, codes[..k], ids, cache, store.positions)
        invariant store == s0.(positions := store.positions)
      {
        ghost var c1, t1 := cache, store.positions;
        assert codes[..k + 1] == codes[..k] + [codes[k]];
        if codes[k].Some? {
          var id := ResolvePosition(codes[k].value);
          ResolvingMore(c0, s0.positions, codes[..k], ids, c1, t1, codes[k].value, id, cache, store.positions);
          ids := ids + [Some(id)];
        } else {
          ResolvingNone(c0, s0.positions, codes[..k], ids, cache, store.positions);
          ids := ids + [None];
        }
      }
      assert codes[..|codes|] == codes;
      CachedIdsName(c0, s0.positions, Given(codes));
    }

    // Country names become country ids, and unknown countries nothing.
    method ResolveCountries(page: Raw) returns (raw: Raw)
      ensures raw == page.(
        fkCountryBirth := Validated(LookedUp(page.countryBirthName, page.fkCountryBirth, names), valid),
        fkNatTeam := Validated(LookedUp(page.nationalTeamName, page.fkNatTeam, names), valid),
        fkYouthNatTeam := Validated(LookedUp(page.youthNatTeamName, page.fkYouthNatTeam, names), valid),
        fkCitizenship := Citizenship(page, names, valid))
    {
      raw := page;
      raw := raw.(fkCountryBirth := LookedUp(raw.countryBirthName, raw.fkCountryBirth, names));
      raw := raw.(fkNatTeam := LookedUp(raw.nationalTeamName, raw.fkNatTeam, names));
      raw := raw.(fkYouthNatTeam := LookedUp(raw.youthNatTeamName, raw.fkYouthNatTeam, names));
      if raw.citizenshipName.Some? {
        raw := raw.(fkCitizenship := Truthy(Validated(LookedUp(raw.citizenshipName, None, names), valid)));
      }
      raw := raw.(fkCountryBirth := Validated(raw.fkCountryBirth, valid));
      raw := raw.(fkNatTeam := Validated(raw.fkNatTeam, valid));
      raw := raw.(fkYouthNatTeam := Validated(raw.fkYouthNatTeam, valid));
    }

    method ResolveCityAndTeam(raw: Raw) returns (city: Option<int>)
      requires LookupOk(store.cities)
      modifies this`store
      ensures store == old(store).(cities := store.cities, teams := store.teams)
      ensures LookupOk(store.cities) && Extends(old(store).cities, store.cities)
      ensures store.cities.ids.Keys == old(store).cities.ids.Keys + Named(raw.cityName)
      ensures match raw.cityName
        case None => city == None
        case Some(n) => n in store.cities.ids && city == Some(store.cities.ids[n])
      ensures TeamStubbed(old(store).teams, raw, store.teams)
    {
      city := None;
      if raw.cityName.Some? {
        var id := UpsertCity(raw.cityName.value);
        city := Some(id);
      }
      if raw.fkTeam.Some? {
        UpsertTeamStub(raw.fkTeam.value, raw.clubUrl);
      }
    }

    // Positions, city and team: afterwards every key of the row exists in its table.
    method ResolveKeys(raw: Raw) returns (row: InfoRow)
      requires Valid() && raw.fkCity.None? && KnownCountries(raw, store.countries)
      modifies this
      ensures Valid() && RowOk(store, row) && Grows(old(store), store)
      ensures store == old(store).(positions := store.positions, cities := store.cities, teams := store.teams)
      ensures row ==
        InfoRow(raw.fkCountryBirth, row.fkCity, raw.fkNatTeam, raw.fkYouthNatTeam, raw.fkTeam, row.positions)
      ensures AllResolved(store.positions, raw.positions, row.positions) && CityResolved(store, raw, row)
      ensures cache.Keys == old(cache).Keys + Codes(raw.positions) && Gained(old(store), raw, store)
    {
      ghost var s0 := store;
      var posIds := ResolvePositions(raw.positions);
      var city := ResolveCityAndTeam(raw);
      row := InfoRow(raw.fkCountryBirth, city, raw.fkNatTeam, raw.fkYouthNatTeam, raw.fkTeam, posIds);
      ResolvedRowOk(s0, store, raw.positions, row);
    }

    method UpsertPlayerInfo(player: string, row: InfoRow)
      requires Valid() && RowOk(store, row)
      modifies this`store
      ensures Valid() && store == old(store).(info := old(store).info[player := row])
    {
      store := store.(info := store.info[player := row]);
    }

    method UpsertPhoto(player: string, photoUrl: Option<string>)
      requires Valid()
      modifies this`store
      ensures Valid() && store == old(store).(photos := store.photos)
      ensures store.photos == if photoUrl.None? then old(store).photos else old(store).photos[player := photoUrl.value]
    {
      if photoUrl.None? {
        return;
      }
      store := store.(photos := store.photos[player := photoUrl.value]);
    }

    method UpsertCitizenship(player: string, country: string)
      requires Valid() && country in store.countries
      modifies this`store
      ensures Valid() && store == old(store).(citizenships := old(store).citizenships + {(player, country)})
    {
      store := store.(citizenships := store.citizenships + {(player, country)});
    }

    // The rows of the page's player, whose keys are resolved.
    method WriteRows(raw: Raw, row: InfoRow)
      requires Valid() && RowOk(store, row) && (raw.fkCitizenship.Some? ==> raw.fkCitizenship.value in store.countries)
      modifies this`store
      ensures Valid() && PhotoWritten(old(store).photos, raw, store.photos)
      ensures store == old(store).(info := old(store).info[raw.playerId := row], photos := store.photos,
                                   citizenships := store.citizenships)
      ensures store.citizenships == old(store).citizenships
                + if raw.fkCitizenship.Some? then {(raw.playerId, raw.fkCitizenship.value)} else {}
    {
      UpsertPlayerInfo(raw.playerId, row);
      UpsertPhoto(raw.playerId, raw.photoUrl);
      if raw.fkCitizenship.Some? {
        UpsertCitizenship(raw.playerId, raw.fkCitizenship.value);
      }
    }

    // One job, as far as the tables of this model go. None: the page was empty, an error.
    method Process(page: Option<Raw>) returns (result: Option<(string, Option<string>)>)
      requires Valid() && (page.Some? ==> Parsed(page.value))
      modifies this
      ensures Valid() && Grows(old(store), store) && store.countries == old(store).countries
      ensures result.None? <==> page.None?
      ensures page.None? ==> store == old(store) && cache == old(cache)
      ensures page.Some? ==>
        && Gained(old(store), page.value, store)
        && PhotoWritten(old(store).photos, page.value, store.photos)
        && CitizenshipWritten(old(store).citizenships, page.value, names, valid, store.citizenships)
        && page.value.playerId in store.info
        && store.info == old(store).info[page.value.playerId := store.info[page.value.playerId]]
        && Faithful(page.value, names, valid, store, store.info[page.value.playerId])
        && cache.Keys == old(cache).Keys + Codes(page.value.positions)
        && (var row := store.info[page.value.playerId];
            result.value.1 ==
              if row.fkNatTeam.Some? && row.fkNatTeam.value != "" then row.fkNatTeam else row.fkCountryBirth)
        && result.value.0 == DisplayName(page.value.fullName, page.value.playerId)
    {
      if page.None? {
        return None;
      }
      CountriesResolved(page.value, names, valid);
      CitizenshipResolved(store.citizenships, page.value, names, valid);
      var raw := ResolveCountries(page.value);
      var row := ResolveKeys(raw);
      WriteRows(raw, row);
      var country := Truthy(raw.fkNatTeam);
      return Some((DisplayName(raw.fullName, raw.playerId), if country.Some? then country else raw.fkCountryBirth));
    }

    // A job whose transaction fails after `process`: the rows roll back, the id sequences and the
    // cache do not. The cache still agrees with the tables exactly when every code of the page was
    // already in the table.
    method ProcessAndRollBack(page: Option<Raw>)
      requires Valid() && (page.Some? ==> Parsed(page.value))
      modifies this
      ensures store == old(store).(positions := RolledBack(old(store).positions, store.positions),
                                   cities := RolledBack(old(store).cities, store.cities))
      ensures old(store).positions.next <= store.positions.next && old(store).cities.next <= store.cities.next
      ensures Valid() <==> page.None? || Codes(page.value.positions) <= old(store).positions.ids.Keys
    {
      var committed := store;
      var result := Process(page);
      RollbackKeepsCacheIff(cache, committed.positions, store.positions);
      RollbackKeepsStore(committed, store);
      store := committed.(positions := RolledBack(committed.positions, store.positions),
                          cities := RolledBack(committed.cities, store.cities));
    }
  }

  lemma RollbackKeepsStore(s: Store, s': Store)
    requires StoreOk(s) && Grows(s, s')
    ensures StoreOk(s.(positions := RolledBack(s.positions, s'.positions), cities := RolledBack(s.cities, s'.cities)))
  {
    var back := s.(positions := RolledBack(s.positions, s'.positions), cities := RolledBack(s.cities, s'.cities));
    forall p | p in back.info ensures RowOk(back, back.info[p]) {
      assert RowOk(s, s.info[p]);
    }
  }

  // What the scraper hands over: no key it could not know, three position slots.
  predicate Parsed(raw: Raw) {
    raw.fkCity.None? && raw.fkCitizenship.None? && |raw.positions| == 3
  }

  function DisplayName(fullName: Option<string>, playerId: string): (name: string)
    ensures fullName.Some? && fullName.value != "" ==> name == fullName.value
    ensures !(fullName.Some? && fullName.value != "") && playerId != "" ==> name == playerId
    ensures !(fullName.Some? && fullName.value != "") && playerId == "" ==> name == "unknown"
  {
    var name := Truthy(fullName);
    if name.Some? then name.value else if playerId != "" then playerId else "unknown"
  }

  // Python's `x or None` on an optional string.
  function Truthy(s: Option<string>): Option<string> {
    if s == Some("") then None else s
  }

  // The citizenship that is written: a known country, by a name that is not empty.
  function Citizenship(page: Raw, names: map<string, string>, valid: set<string>): (r: Option<string>)
    ensures page.citizenshipName.Some? ==>
      (r.Some? <==> page.citizenshipName.value in names && names[page.citizenshipName.value] in valid - {""})
    ensures page.citizenshipName.Some? && r.Some? ==> r.value == names[page.citizenshipName.value]
    ensures page.citizenshipName.None? ==> r == page.fkCitizenship
  {
    if page.citizenshipName.Some?
    then Truthy(Validated(LookedUp(page.citizenshipName, None, names), valid))
    else page.fkCitizenship
  }

  // The page's player gains the citizenship that the page names, if it is a known country; no other pair
  // comes or goes.
  ghost predicate CitizenshipWritten(before: set<(string, string)>, page: Raw, names: map<string, string>,
                                     valid: set<string>, after: set<(string, string)>) {
    forall p, c :: (p, c) in after <==>
      || (p, c) in before
      || (&& p == page.playerId && c != "" && c in valid
          && page.citizenshipName.Some? && page.citizenshipName.value in names
          && names[page.citizenshipName.value] == c)
  }

  lemma CountriesResolved(page: Raw, names: map<string, string>, valid: set<string>)
    ensures CountryIs(Validated(LookedUp(page.countryBirthName, page.fkCountryBirth, names), valid),
                      page.countryBirthName, page.fkCountryBirth, names, valid)
    ensures CountryIs(Validated(LookedUp(page.nationalTeamName, page.fkNatTeam, names), valid),
                      page.nationalTeamName, page.fkNatTeam, names, valid)
    ensures CountryIs(Validated(LookedUp(page.youthNatTeamName, page.fkYouthNatTeam, names), valid),
                      page.youthNatTeamName, page.fkYouthNatTeam, names, valid)
  {
  }

  lemma CitizenshipResolved(before: set<(string, string)>, page: Raw, names: map<string, string>, valid: set<string>)
    requires page.fkCitizenship.None?
    ensures var c := Citizenship(page, names, valid);
      CitizenshipWritten(before, page, names, valid,
                         before + if c.Some? then {(page.playerId, c.value)} else {})
  {
  }

  // The page's player has the page's photo, if it has one; nobody else's changes.
  ghost predicate PhotoWritten(before: map<string, string>, page: Raw, after: map<string, string>) {
    && after.Keys == before.Keys + (if page.photoUrl.Some? then {page.playerId} else {})
    && (forall p :: p in after ==>
          after[p] == if p == page.playerId && page.photoUrl.Some? then page.photoUrl.value else before[p])
  }

  function Named(name: Option<string>): set<string> {
    if name.Some? then {name.value} else {}
  }

  // A team that was there is untouched; the page's own, if it was not, has the page's URL.
  ghost predicate TeamStubbed(teams: map<string, Option<string>>, raw: Raw, teams': map<string, Option<string>>) {
    && teams'.Keys == teams.Keys + Named(raw.fkTeam)
    && (forall team :: team in teams ==> teams'[team] == teams[team])
    && (raw.fkTeam.Some? && raw.fkTeam.value !in teams ==> teams'[raw.fkTeam.value] == raw.clubUrl)
  }

  // The lookup tables gain the page's names and no others.
  ghost predicate Gained(s: Store, raw: Raw, s': Store) {
    && s'.positions.ids.Keys == s.positions.ids.Keys + Codes(raw.positions)
    && s'.cities.ids.Keys == s.cities.ids.Keys + Named(raw.cityName)
    && TeamStubbed(s.teams, raw, s'.teams)
  }

  predicate KnownCountries(raw: Raw, countries: set<string>) {
    && (raw.fkCountryBirth.Some? ==> raw.fkCountryBirth.value in countries)
    && (raw.fkNatTeam.Some? ==> raw.fkNatTeam.value in countries)
    && (raw.fkYouthNatTeam.Some? ==> raw.fkYouthNatTeam.value in countries)
  }

  predicate CityResolved(s: Store, raw: Raw, row: InfoRow) {
    match raw.cityName
    case None => row.fkCity == None
    case Some(n) => n in s.cities.ids && row.fkCity == Some(s.cities.ids[n])
  }

  // A country key is written exactly if it is a known country, and the one that the page names, or
  // carries when it names none.
  ghost predicate CountryIs(fk: Option<string>, name: Option<string>, parsed: Option<string>,
                            names: map<string, string>, valid: set<string>) {
    forall c :: fk == Some(c) <==>
      c in valid && if name.Some? then name.value in names && names[name.value] == c else parsed == Some(c)
  }

  // The row written for a page: countries that are known or nothing, the city and the positions
  // that the tables hold under the parsed names, the parsed team.
  ghost predicate Faithful(raw: Raw, names: map<string, string>, valid: set<string>, s: Store, row: InfoRow) {
    && CountryIs(row.fkCountryBirth, raw.countryBirthName, raw.fkCountryBirth, names, valid)
    && CountryIs(row.fkNatTeam, raw.nationalTeamName, raw.fkNatTeam, names, valid)
    && CountryIs(row.fkYouthNatTeam, raw.youthNatTeamName, raw.fkYouthNatTeam, names, valid)
    && CityResolved(s, raw, row)
    && row.fkTeam == raw.fkTeam
    && AllResolved(s.positions, raw.positions, row.positions)
  }

  // Writing a resolved row keeps every reference of every row valid.
  lemma ResolvedRowOk(s0: Store, s: Store, codes: seq<Option<string>>, row: InfoRow)
    requires StoreOk(s0) && Grows(s0, s) && s.info == s0.info && s.citizenships == s0.citizenships
    requires LookupOk(s.cities) && LookupOk(s.positions)
    requires AllResolved(s.positions, codes, row.positions)
    requires row.fkCountryBirth.Some? ==> row.fkCountryBirth.value in s.countries
    requires row.fkNatTeam.Some? ==> row.fkNatTeam.value in s.countries
    requires row.fkYouthNatTeam.Some? ==> row.fkYouthNatTeam.value in s.countries
    requires row.fkCity.Some? ==> row.fkCity.value in s.cities.ids.Values
    requires row.fkTeam.Some? ==> row.fkTeam.value in s.teams
    ensures RowOk(s, row) && StoreOk(s)
  {
    forall i | 0 <= i < |row.positions| && row.positions[i].Some?
      ensures row.positions[i].value in s.positions.ids.Values
    {
      assert codes[i].value in s.positions.ids;
    }
    forall p | p in s.info ensures RowOk(s, s.info[p]) {
      GrowthKeepsRow(s0, s, s.info[p]);
    }
  }

  // ---------- The position slots ----------

  ghost predicate AllResolved(t: Lookup, codes: seq<Option<string>>, ids: seq<Option<int>>) {
    && |ids| == |codes|
    && forall i :: 0 <= i < |codes| ==>
         if codes[i].Some? then codes[i].value in t.ids && ids[i] == Some(t.ids[codes[i].value]) else ids[i] == None
  }

  // The slots that are filled.
  function Given<T>(slots: seq<Option<T>>): seq<T> {
    if slots == [] then []
    else Given(slots[..|slots| - 1]) + match slots[|slots| - 1] case None => [] case Some(x) => [x]
  }

  function Codes(slots: seq<Option<string>>): set<string> {
    Members(Given(slots))
  }

  lemma GivenSnoc<T>(slots: seq<Option<T>>, s: Option<T>)
    ensures Given(slots + [s]) == if s.Some? then Given(slots) + [s.value] else Given(slots)
  {
    assert (slots + [s])[..|slots|] == slots;
  }

  // The loop over the slots, after `codes`.
  ghost predicate Resolving(c0: map<string, int>, t0: Lookup, codes: seq<Option<string>>, ids: seq<Option<int>>,
                            c: map<string, int>, t: Lookup) {
    Resolved(Given(ids), c, t) == ResolveEach(c0, t0, Given(codes)) && AllResolved(t, codes, ids)
  }

  lemma ResolvingMore(c0: map<string, int>, t0: Lookup, codes: seq<Option<string>>, ids: seq<Option<int>>,
                      c1: map<string, int>, t1: Lookup, code: string, id: int, c2: map<string, int>, t2: Lookup)
    requires CacheOk(c0, t0) && Resolving(c0, t0, codes, ids, c1, t1)
    requires Resolved(Given(ids) + [id], c2, t2) == ResolveOne(Resolved(Given(ids), c1, t1), code)
    ensures Resolving(c0, t0, codes + [Some(code)], ids + [Some(id)], c2, t2)
  {
    GivenSnoc(codes, Some(code));
    GivenSnoc(ids, Some(id));
    ResolveSnoc(c0, t0, Given(codes), code);
    CachedIdsName(c0, t0, Given(codes));
    CacheStep(Resolved(Given(ids), c1, t1), code);
    SlotMore(t1, t2, codes, ids, Some(code), Some(t2.ids[code]));
    assert id == (Given(ids) + [id])[|Given(ids)|];
  }

  lemma ResolvingNone(c0: map<string, int>, t0: Lookup, codes: seq<Option<string>>, ids: seq<Option<int>>,
                      c: map<string, int>, t: Lookup)
    requires Resolving(c0, t0, codes, ids, c, t)
    ensures Resolving(c0, t0, codes + [None], ids + [None], c, t)
  {
    GivenSnoc(codes, None);
    GivenSnoc(ids, None);
    SlotMore(t, t, codes, ids, None, None);
  }

  lemma SlotMore(t1: Lookup, t2: Lookup, codes: seq<Option<string>>, ids: seq<Option<int>>, code: Option<string>,
                 id: Option<int>)
    requires AllResolved(t1, codes, ids) && Extends(t1, t2)
    requires if code.Some? then code.value in t2.ids && id == Some(t2.ids[code.value]) else id == None
    ensures AllResolved(t2, codes + [code], ids + [id])
  {
    assert forall i :: 0 <= i < |codes| && codes[i].Some? ==> codes[i].value in t1.ids;
  }
}
