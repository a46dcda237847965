/**
 Migration p10b: countries and the flags that refer to them are re-keyed from UUID to country
 code, and back. Tables are column stores over fixed sets of rows; a column that does not exist at
 some point of the migration is None. A failing statement aborts the migration.
 */
module CountryMigration {
  import opened Tables

  type CountryRow = string   // an identity for each stored row, not a column
  type FlagRow = string
  type Column = map<string, string>

  ghost predicate Unique(col: Column) {
    forall a, b :: a in col && b in col && col[a] == col[b] ==> a == b
  }

  // Which flag belongs to which country, by the key column in use.
  ghost predicate Refers(key: Column, fk: Column, f: FlagRow, c: CountryRow) {
    f in fk && c in key && key[c] == fk[f]
  }

  ghost predicate SameRelation(key: Column, fk: Column, key': Column, fk': Column) {
    forall f, c :: Refers(key, fk, f, c) <==> Refers(key', fk', f, c)
  }

  ghost predicate ForeignKey(fk: Column, key: Column) {
    forall f :: f in fk ==> fk[f] in key.Values
  }

  // At most one flag a country.
  ghost predicate OneFlagEach(key: Column, fk: Column) {
    forall f, g, c :: Refers(key, fk, f, c) && Refers(key, fk, g, c) ==> f == g
  }

  // UPDATE flags SET new = other.target FROM countries WHERE countries.key = flags.fk
  function Joined(key: Column, target: Column, fk: Column): (r: map<string, Option<string>>)
    requires Unique(key) && target.Keys == key.Keys
    ensures r.Keys == fk.Keys
    ensures forall f :: f in fk ==>
      if fk[f] in key.Values then exists c :: Refers(key, fk, f, c) && r[f] == Some(target[c]) else r[f] == None
  {
    map f | f in fk :: Lookup(key, target, fk[f])
  }

  function Lookup(key: Column, target: Column, v: string): (r: Option<string>)
    requires Unique(key) && target.Keys == key.Keys
    ensures if v in key.Values then exists c :: c in key && key[c] == v && r == Some(target[c]) else r == None
  {
    if v in key.Values then
      var c :| c in key && key[c] == v;
      Some(target[c])
    else None
  }

  // Re-keying through a join keeps the relation when the new key is unique.
  lemma RekeyKeepsRelation(key: Column, target: Column, fk: Column, fk': Column)
    requires Unique(key) && Unique(target) && target.Keys == key.Keys && ForeignKey(fk, key)
    requires fk'.Keys == fk.Keys && forall f :: f in fk ==> Some(fk'[f]) == Lookup(key, target, fk[f])
    ensures SameRelation(key, fk, target, fk') && ForeignKey(fk', target)
    ensures OneFlagEach(key, fk) ==> Unique(fk')
  {
    forall f | f in fk
      ensures fk'[f] in target.Values && forall c :: Refers(key, fk, f, c) <==> Refers(target, fk', f, c)
    {
      assert fk[f] in key.Values;
      var d :| d in key && key[d] == fk[f] && Some(fk'[f]) == Some(target[d]);
      assert target[d] in target.Values;
    }
    if OneFlagEach(key, fk) {
      forall f, g | f in fk' && g in fk' && fk'[f] == fk'[g] ensures f == g {
        var c := KeyOf(target, fk'[f]);
        assert Refers(target, fk', f, c) && Refers(target, fk', g, c);
        assert Refers(key, fk, f, c) && Refers(key, fk, g, c);
      }
    }
  }

  lemma UniqueFkIsOneFlagEach(key: Column, fk: Column)
    requires Unique(key)
    ensures Unique(fk) ==> OneFlagEach(key, fk)
    ensures OneFlagEach(key, fk) && ForeignKey(fk, key) ==> Unique(fk)
  {
    if OneFlagEach(key, fk) && ForeignKey(fk, key) {
      forall f, g | f in fk && g in fk && fk[f] == fk[g] ensures f == g {
        var c := KeyOf(key, fk[f]);
        assert Refers(key, fk, f, c) && Refers(key, fk, g, c);
      }
    }
  }

  // The new key column of the flags: a temporary column filled through a join, in which NULL is an
  // error. It never is, and the column is the old one under the new keys.
  method FillThrough(key: Column, target: Column, fk: Column) returns (ok: bool, filled: Column)
    requires Unique(key) && Unique(target) && target.Keys == key.Keys && ForeignKey(fk, key) && Unique(fk)
    ensures ok && filled.Keys == fk.Keys && SameRelation(key, fk, target, filled) && ForeignKey(filled, target)
    ensures Unique(filled) && OneFlagEach(target, filled)
  {
    var temp := Joined(key, target, fk);
    ok := forall f :: f in temp ==> temp[f].Some?;
    if !ok {
      return ok, fk;
    }
    filled := map f | f in temp :: temp[f].value;
    forall f | f in fk ensures Some(filled[f]) == Lookup(key, target, fk[f]) {
      JoinedIsLookup(key, target, fk, f);
    }
    UniqueFkIsOneFlagEach(key, fk);
    RekeyKeepsRelation(key, target, fk, filled);
    UniqueFkIsOneFlagEach(target, filled);
  }

  class CountrySchema {
    const codes: Column              // tbl_countries.country_id
    var ids: Option<Column>          // tbl_countries.id
    var fkUuid: Option<Column>       // tbl_flags.fk_country as UUID
    var fkCode: Option<Column>       // tbl_flags.fk_country as VARCHAR

    constructor (codes: Column, ids: Column, fk: Column)
      ensures this.codes == codes && this.ids == Some(ids) && fkUuid == Some(fk) && fkCode == None
    {
      this.codes := codes;
      this.ids, fkUuid, fkCode := Some(ids), Some(fk), None;
    }

    // The constraints of the UUID schema: primary key, unique code, one flag a country, foreign key.
    ghost predicate UuidSchema()
      reads this
    {
      && ids.Some? && fkUuid.Some? && fkCode.None?
      && ids.value.Keys == codes.Keys && Unique(ids.value) && Unique(codes) && Unique(fkUuid.value)
      && ForeignKey(fkUuid.value, ids.value)
    }

    ghost predicate CodeSchema()
      reads this
    {
      && ids.None? && fkUuid.None? && fkCode.Some? && Unique(codes) && Unique(fkCode.value)
      && ForeignKey(fkCode.value, codes)
    }

    // Its check for flags without a country never fires, and no flag changes country.
    method Upgrade() returns (ok: bool)
      requires UuidSchema()
      modifies this
      ensures ok && CodeSchema()
      ensures fkCode.value.Keys == old(fkUuid).value.Keys
      ensures SameRelation(old(ids).value, old(fkUuid).value, codes, fkCode.value)
      ensures OneFlagEach(codes, fkCode.value)
    {
      // 2, 3, 4: temporary column, filled through the UUID join, every flag has a country
      var filled;
      ok, filled := FillThrough(ids.value, codes, fkUuid.value);
      if !ok {
        return;
      }
      // 7, 8, 12: the UUID columns go, the temporary column takes their place
      fkUuid, fkCode, ids := None, Some(filled), None;
      return true;
    }

    // `uuids` is what gen_random_uuid() assigns; a repeated value violates the primary key.
    method Downgrade(uuids: Column) returns (ok: bool)
      requires CodeSchema() && uuids.Keys == codes.Keys
      modifies this
      ensures ok <==> Unique(uuids)
      ensures !ok ==> CodeSchema() && fkCode == old(fkCode)
      ensures ok ==>
        && UuidSchema() && ids == Some(uuids) && fkUuid.value.Keys == old(fkCode).value.Keys
        && SameRelation(codes, old(fkCode).value, ids.value, fkUuid.value)
        && OneFlagEach(ids.value, fkUuid.value)
    {
      // 3, 4: the new id column becomes the primary key
      ok := forall a, b :: a in uuids && b in uuids && uuids[a] == uuids[b] ==> a == b;
      if !ok {
        return;
      }
      // 6, 7, 8: temporary column, filled through the code join, NOT NULL
      var filled;
      ok, filled := FillThrough(codes, uuids, fkCode.value);
      if !ok {
        return;
      }
      // 11, 12: it takes the place of the code column
      ids, fkUuid, fkCode := Some(uuids), Some(filled), None;
      return true;
    }

    // Up and down again: whatever injective UUIDs are drawn, each flag is back with its country.
    method UpThenDown(uuids: Column) returns (ok: bool)
      requires UuidSchema()
      requires uuids.Keys == codes.Keys && Unique(uuids)
      modifies this
      ensures ok && UuidSchema() && ids == Some(uuids)
      ensures SameRelation(old(ids).value, old(fkUuid).value, ids.value, fkUuid.value)
    {
      ok := Upgrade();
      ok := Downgrade(uuids);
    }
  }

  lemma JoinedIsLookup(key: Column, target: Column, fk: Column, f: FlagRow)
    requires Unique(key) && target.Keys == key.Keys && f in fk
    ensures Joined(key, target, fk)[f] == Lookup(key, target, fk[f])
  {
  }
}
