/**
 A lookup table with a unique text column and a SERIAL key, and a cache of some of its rows.
 */
module LookupTable {

  datatype Lookup = Lookup(ids: map<string, int>, next: int)

  predicate LookupOk(t: Lookup) {
    && (forall a | a in t.ids :: t.ids[a] < t.next)
    && (forall a, b | a in t.ids && b in t.ids :: t.ids[a] == t.ids[b] ==> a == b)
  }

  // INSERT ... ON CONFLICT DO NOTHING; the sequence advances either way.
  function Upserted(t: Lookup, name: string): (r: Lookup)
    ensures LookupOk(t) ==> LookupOk(r)
    ensures Extends(t, r) && r.ids.Keys == t.ids.Keys + {name}
  {
    Lookup(if name in t.ids then t.ids else t.ids[name := t.next], t.next + 1)
  }

  // What upsert_position or upsert_city returns.
  function UpsertId(t: Lookup, name: string): int {
    Upserted(t, name).ids[name]
  }

  // A known name keeps its id, a new one gets the next of the sequence, and either uses one up.
  lemma UpsertMeans(t: Lookup, name: string)
    ensures Upserted(t, name).next == t.next + 1
    ensures UpsertId(t, name) == if name in t.ids then t.ids[name] else t.next
    ensures forall a :: a in t.ids ==> a in Upserted(t, name).ids && Upserted(t, name).ids[a] == t.ids[a]
  {
  }

  // Old names keep their ids, and the sequence does not go back.
  ghost predicate Extends(t: Lookup, r: Lookup) {
    t.next <= r.next && forall a :: a in t.ids ==> a in r.ids && r.ids[a] == t.ids[a]
  }

  lemma ValuesGrow(t: Lookup, r: Lookup)
    requires Extends(t, r)
    ensures t.ids.Values <= r.ids.Values
  {
    forall v | v in t.ids.Values ensures v in r.ids.Values {
      var a :| a in t.ids && t.ids[a] == v;
      assert r.ids[a] == v;
    }
  }

  // A rollback takes the rows back, and not the sequence values.
  function RolledBack(committed: Lookup, t: Lookup): Lookup {
    Lookup(committed.ids, t.next)
  }

  ghost predicate CacheOk(cache: map<string, int>, t: Lookup) {
    forall code :: code in cache ==> code in t.ids && t.ids[code] == cache[code]
  }

  // The tables roll back with a failed job and the cache does not. It still agrees with the tables
  // exactly when the job had cached no position that was new to them.
  lemma RollbackKeepsCacheIff(cache: map<string, int>, committed: Lookup, t: Lookup)
    requires CacheOk(cache, t) && Extends(committed, t)
    ensures CacheOk(cache, RolledBack(committed, t)) <==> cache.Keys <= committed.ids.Keys
  {
  }
}
