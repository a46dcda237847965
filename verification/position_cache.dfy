/**
 Position codes resolved one after the other, through the cache or by an upsert every time.
 */
module PositionCache {
  import opened LookupTable

  datatype Resolved = Resolved(ids: seq<int>, cache: map<string, int>, table: Lookup)

  function ResolveOne(r: Resolved, code: string): Resolved {
    if code in r.cache then r.(ids := r.ids + [r.cache[code]])
    else
      var id := UpsertId(r.table, code);
      Resolved(r.ids + [id], r.cache[code := id], Upserted(r.table, code))
  }

  function ResolveEach(cache: map<string, int>, t: Lookup, codes: seq<string>): Resolved {
    if codes == [] then Resolved([], cache, t)
    else ResolveOne(ResolveEach(cache, t, codes[..|codes| - 1]), codes[|codes| - 1])
  }

  function UpsertOne(r: Resolved, code: string): Resolved {
    Resolved(r.ids + [UpsertId(r.table, code)], r.cache, Upserted(r.table, code))
  }

  // With no cache: upsert_position every time.
  function UpsertEach(t: Lookup, codes: seq<string>): Resolved {
    if codes == [] then Resolved([], map[], t)
    else UpsertOne(UpsertEach(t, codes[..|codes| - 1]), codes[|codes| - 1])
  }

  lemma ResolveSnoc(cache: map<string, int>, t: Lookup, codes: seq<string>, code: string)
    ensures ResolveEach(cache, t, codes + [code]) == ResolveOne(ResolveEach(cache, t, codes), code)
  {
    assert (codes + [code])[..|codes|] == codes;
  }

  function Members(codes: seq<string>): (members: set<string>)
    ensures members == set x | x in codes
  {
    set x | x in codes
  }

  lemma MembersSnoc(codes: seq<string>, code: string)
    ensures Members(codes + [code]) == Members(codes) + {code}
  {
  }

  // ---------- The ids stand for the codes ----------

  // The ids are those of the codes in a table that extends `t` by these codes.
  ghost predicate Names(t: Lookup, codes: seq<string>, r: Resolved) {
    && |r.ids| == |codes|
    && (forall i :: 0 <= i < |codes| ==> codes[i] in r.table.ids && r.table.ids[codes[i]] == r.ids[i])
    && Extends(t, r.table) && r.table.ids.Keys == t.ids.Keys + Members(codes)
    && (LookupOk(t) ==> LookupOk(r.table))
  }

  lemma NamesSnoc(t: Lookup, codes: seq<string>, r: Resolved, code: string, s: Resolved)
    requires Names(t, codes, r) && Extends(r.table, s.table) && s.table.ids.Keys == r.table.ids.Keys + {code}
    requires s.ids == r.ids + [s.table.ids[code]] && (LookupOk(r.table) ==> LookupOk(s.table))
    ensures Names(t, codes + [code], s)
  {
    MembersSnoc(codes, code);
    forall i | 0 <= i < |codes + [code]|
      ensures (codes + [code])[i] in s.table.ids && s.table.ids[(codes + [code])[i]] == s.ids[i]
    {
      if i < |codes| {
        assert codes[i] in r.table.ids;
      }
    }
  }

  // Names, and a cache in agreement with the table that has gained the codes as well.
  ghost predicate NamesAndCache(cache: map<string, int>, t: Lookup, codes: seq<string>, r: Resolved) {
    Names(t, codes, r) && CacheOk(r.cache, r.table) && r.cache.Keys == cache.Keys + Members(codes)
  }

  lemma NamesAndCacheStep(cache: map<string, int>, t: Lookup, codes: seq<string>, r: Resolved, code: string)
    requires NamesAndCache(cache, t, codes, r)
    ensures NamesAndCache(cache, t, codes + [code], ResolveOne(r, code))
  {
    CacheStep(r, code);
    NamesSnoc(t, codes, r, code, ResolveOne(r, code));
    MembersSnoc(codes, code);
  }

  lemma {:induction false} CachedIdsName(cache: map<string, int>, t: Lookup, codes: seq<string>)
    requires CacheOk(cache, t)
    ensures NamesAndCache(cache, t, codes, ResolveEach(cache, t, codes))
  {
    if codes == [] {
      assert Members([]) == {};
    } else {
      var init, code := codes[..|codes| - 1], codes[|codes| - 1];
      assert codes == init + [code];
      CachedIdsName(cache, t, init);
      NamesAndCacheStep(cache, t, init, ResolveEach(cache, t, init), code);
    }
  }

  lemma CacheStep(r: Resolved, code: string)
    requires CacheOk(r.cache, r.table)
    ensures var s := ResolveOne(r, code);
      && CacheOk(s.cache, s.table) && s.cache.Keys == r.cache.Keys + {code}
      && Extends(r.table, s.table) && s.table.ids.Keys == r.table.ids.Keys + {code}
      && s.ids == r.ids + [s.table.ids[code]] && (LookupOk(r.table) ==> LookupOk(s.table))
  {
  }

  lemma {:induction false} UncachedIdsName(t: Lookup, codes: seq<string>)
    ensures Names(t, codes, UpsertEach(t, codes))
  {
    if codes != [] {
      var init, code := codes[..|codes| - 1], codes[|codes| - 1];
      assert codes == init + [code];
      UncachedIdsName(t, init);
      NamesSnoc(t, init, UpsertEach(t, init), code, UpsertEach(t, codes));
    }
  }

  // Cached or not, the ids stand for the codes: two are equal exactly when their codes are.
  lemma CachingIsUpToRenaming(cache: map<string, int>, t: Lookup, codes: seq<string>, i: nat, j: nat)
    requires CacheOk(cache, t) && LookupOk(t) && i < |codes| && j < |codes|
    ensures var ids, jds := ResolveEach(cache, t, codes).ids, UpsertEach(t, codes).ids;
      && |ids| == |jds| == |codes|
      && (ids[i] == ids[j] <==> codes[i] == codes[j])
      && (jds[i] == jds[j] <==> codes[i] == codes[j])
  {
    CachedIdsName(cache, t, codes);
    UncachedIdsName(t, codes);
  }

  // ---------- The numbers they have ----------

  // Served from the cache, when resolving `codes` in order.
  predicate Hit(cache: map<string, int>, codes: seq<string>, i: nat)
    requires i < |codes|
  {
    codes[i] in cache || codes[i] in codes[..i]
  }

  // Given an id there and then.
  predicate New(t: Lookup, codes: seq<string>, i: nat)
    requires i < |codes|
  {
    codes[i] !in t.ids && codes[i] !in codes[..i]
  }

  ghost predicate SomeHit(cache: map<string, int>, codes: seq<string>) {
    exists i :: 0 <= i < |codes| && Hit(cache, codes, i)
  }

  ghost predicate NewAfterHit(cache: map<string, int>, t: Lookup, codes: seq<string>) {
    exists i, j :: 0 <= i < j < |codes| && Hit(cache, codes, i) && New(t, codes, j)
  }

  lemma SamePrefix(cache: map<string, int>, t: Lookup, codes: seq<string>, code: string, i: nat)
    requires i < |codes|
    ensures Hit(cache, codes, i) == Hit(cache, codes + [code], i) && New(t, codes, i) == New(t, codes + [code], i)
  {
    assert (codes + [code])[..i] == codes[..i];
  }

  lemma HitsOfSnoc(cache: map<string, int>, t: Lookup, codes: seq<string>, code: string)
    ensures var all := codes + [code];
      && (SomeHit(cache, all) <==> SomeHit(cache, codes) || code in cache || code in codes)
      && (NewAfterHit(cache, t, all) <==>
            NewAfterHit(cache, t, codes) || (SomeHit(cache, codes) && code !in t.ids && code !in codes))
  {
    var all := codes + [code];
    forall i | 0 <= i < |codes|
      ensures Hit(cache, codes, i) == Hit(cache, all, i) && New(t, codes, i) == New(t, all, i)
    {
      SamePrefix(cache, t, codes, code, i);
    }
    assert all[..|codes|] == codes;
    assert Hit(cache, all, |codes|) <==> code in cache || code in codes;
    assert New(t, all, |codes|) <==> code !in t.ids && code !in codes;
    if i, j :| 0 <= i < j < |codes| && Hit(cache, codes, i) && New(t, codes, j) {
      assert Hit(cache, all, i) && New(t, all, j);
    }
    if i :| 0 <= i < |codes| && Hit(cache, codes, i) {
      assert Hit(cache, all, i);
    }
  }

  // A cached run and an uncached run side by side: both tables hold the codes in `known`, the
  // cache those in `cached`, and the cached run is behind in the sequence once it has had a hit.
  ghost predicate Twins(known: set<string>, cached: set<string>, hit: bool, r: Resolved, u: Resolved) {
    && CacheOk(r.cache, r.table) && |r.ids| == |u.ids|
    && r.table.ids.Keys == known && u.table.ids.Keys == known && r.cache.Keys == cached
    && r.table.next <= u.table.next && (r.table.next < u.table.next <==> hit)
    && (r.ids == u.ids ==> r.table.ids == u.table.ids)
  }

  lemma TwinsStep(known: set<string>, cached: set<string>, hit: bool, r: Resolved, u: Resolved, code: string)
    requires Twins(known, cached, hit, r, u)
    ensures Twins(known + {code}, cached + {code}, hit || code in cached, ResolveOne(r, code), UpsertOne(u, code))
    ensures ResolveOne(r, code).ids == UpsertOne(u, code).ids <==> r.ids == u.ids && (!hit || code in known)
  {
    var x := if code in r.cache then r.cache[code] else UpsertId(r.table, code);
    SnocEqual(r.ids, u.ids, x, UpsertId(u.table, code));
    assert code in cached ==> known + {code} == known && cached + {code} == cached;
  }

  lemma SnocEqual(a: seq<int>, b: seq<int>, x: int, y: int)
    requires |a| == |b|
    ensures a + [x] == b + [y] <==> a == b && x == y
  {
    if a + [x] == b + [y] {
      assert a == (a + [x])[..|a|] && b == (b + [y])[..|b|];
      assert (a + [x])[|a|] == x && (b + [y])[|b|] == y;
    }
  }

  // What holds of the two runs after `codes`.
  ghost predicate SideBySide(cache: map<string, int>, t: Lookup, codes: seq<string>, r: Resolved, u: Resolved) {
    && Twins(t.ids.Keys + Members(codes), cache.Keys + Members(codes), SomeHit(cache, codes), r, u)
    && (r.ids == u.ids <==> !NewAfterHit(cache, t, codes))
  }

  lemma SideBySideStep(cache: map<string, int>, t: Lookup, codes: seq<string>, r: Resolved, u: Resolved, code: string)
    requires SideBySide(cache, t, codes, r, u)
    ensures SideBySide(cache, t, codes + [code], ResolveOne(r, code), UpsertOne(u, code))
  {
    var known, cached := t.ids.Keys + Members(codes), cache.Keys + Members(codes);
    TwinsStep(known, cached, SomeHit(cache, codes), r, u, code);
    HitsOfSnoc(cache, t, codes, code);
    MembersSnoc(codes, code);
    assert t.ids.Keys + Members(codes + [code]) == known + {code};
    assert cache.Keys + Members(codes + [code]) == cached + {code};
  }

  lemma {:induction false} CachedAndUncached(cache: map<string, int>, t: Lookup, codes: seq<string>)
    requires CacheOk(cache, t)
    ensures SideBySide(cache, t, codes, ResolveEach(cache, t, codes), UpsertEach(t, codes))
  {
    if codes == [] {
      assert !NewAfterHit(cache, t, []) && !SomeHit(cache, []);
    } else {
      var init, code := codes[..|codes| - 1], codes[|codes| - 1];
      assert codes == init + [code];
      CachedAndUncached(cache, t, init);
      SideBySideStep(cache, t, init, ResolveEach(cache, t, init), UpsertEach(t, init), code);
    }
  }

  // The ids of a cached and of an uncached run are numerically the same exactly when no code
  // is new after a cached one: an upsert of a known code still uses up a sequence value.
  lemma SameSerialsIff(cache: map<string, int>, t: Lookup, codes: seq<string>)
    requires CacheOk(cache, t)
    ensures ResolveEach(cache, t, codes).ids == UpsertEach(t, codes).ids <==> !NewAfterHit(cache, t, codes)
  {
    CachedAndUncached(cache, t, codes);
  }

  // One position listed twice and then a new one.
  lemma ANewCodeAfterARepeat()
    ensures var t, codes := Lookup(map[], 1), ["FW", "FW", "MF"];
      ResolveEach(map[], t, codes).ids != UpsertEach(t, codes).ids
  {
    var codes := ["FW", "FW", "MF"];
    assert codes[..1] == ["FW"] && codes[..2] == ["FW", "FW"];
    assert Hit(map[], codes, 1) && New(Lookup(map[], 1), codes, 2);
    SameSerialsIff(map[], Lookup(map[], 1), codes);
  }

  // One new position, and the job that resolved it is rolled back.
  lemma ANewCodeRolledBack()
    ensures var committed := Lookup(map[], 1); var r := ResolveEach(map[], committed, ["FW"]);
      CacheOk(r.cache, r.table) && !CacheOk(r.cache, RolledBack(committed, r.table))
  {
    var committed := Lookup(map[], 1);
    var r := ResolveEach(map[], committed, ["FW"]);
    CachedIdsName(map[], committed, ["FW"]);
    assert "FW" in Members(["FW"]);
    RollbackKeepsCacheIff(r.cache, committed, r.table);
  }
}
