/**
 PlayerDiscoveryRepository.bulk_enqueue: a page of players inserted in chunks into the player
 table and the URL registry, existing keys left alone.
 */
module PlayerDiscovery {
  import opened Tables

  const PROFILE_CADENCE_HOURS := 168
  const PROFILE_PRIORITY := 5

  datatype Listed = Listed(
    playerId: string, fullName: string, careerStart: Option<int>, careerEnd: Option<int>, playerUrl: string)

  // What becomes of a chunk's insert into the registry, whose exceptions are swallowed: it may fail
  // before it reaches the database, or in the database, which aborts the transaction it is part of.
  datatype CoInsert = Inserts | SkipsChunk | Aborts

  datatype Player = Player(fullName: string, careerStart: Option<int>, careerEnd: Option<int>, fkCountry: string)

  // ---------- INSERT ... ON CONFLICT DO NOTHING ----------

  function InsertEach<V>(t: map<string, V>, rows: seq<(string, V)>): map<string, V>
    decreases |rows|
  {
    if rows == [] then t
    else InsertEach(if rows[0].0 in t then t else t[rows[0].0 := rows[0].1], rows[1..])
  }

  ghost predicate FirstAt<V>(rows: seq<(string, V)>, i: nat) {
    i < |rows| && forall j :: 0 <= j < i ==> rows[j].0 != rows[i].0
  }

  // What a first-wins insert means: old rows stay, and a new key gets its first row.
  ghost predicate FirstWins<V>(t: map<string, V>, rows: seq<(string, V)>, r: map<string, V>) {
    && (forall k :: k in r <==> k in t || exists i :: 0 <= i < |rows| && rows[i].0 == k)
    && (forall k :: k in t ==> r[k] == t[k])
    && (forall i: nat :: FirstAt(rows, i) && rows[i].0 !in t ==> r[rows[i].0] == rows[i].1)
  }

  lemma {:induction false} InsertEachIsFirstWins<V>(t: map<string, V>, rows: seq<(string, V)>)
    ensures FirstWins(t, rows, InsertEach(t, rows))
    decreases |rows|
  {
    if rows != [] {
      var t' := if rows[0].0 in t then t else t[rows[0].0 := rows[0].1];
      var rest := rows[1..];
      var r := InsertEach(t', rest);
      InsertEachIsFirstWins(t', rest);
      forall k ensures k in r <==> k in t || exists i :: 0 <= i < |rows| && rows[i].0 == k {
        if i :| 0 <= i < |rows| && rows[i].0 == k {
          assert i > 0 ==> rest[i - 1].0 == k;
        }
        if i :| 0 <= i < |rest| && rest[i].0 == k {
          assert rows[i + 1].0 == k;
        }
      }
      forall i: nat | FirstAt(rows, i) && rows[i].0 !in t ensures r[rows[i].0] == rows[i].1 {
        if i > 0 {
          assert rows[0].0 != rows[i].0;
          assert FirstAt(rest, i - 1) by {
            forall j | 0 <= j < i - 1 ensures rest[j].0 != rest[i - 1].0 {
              assert rows[j + 1].0 != rows[i].0;
            }
          }
        }
      }
    }
  }

  lemma {:induction false} InsertInParts<V>(t: map<string, V>, a: seq<(string, V)>, b: seq<(string, V)>)
    ensures InsertEach(t, a + b) == InsertEach(InsertEach(t, a), b)
    decreases |a|
  {
    if a == [] {
      assert a + b == b;
    } else {
      assert (a + b)[1..] == a[1..] + b;
      InsertInParts(if a[0].0 in t then t else t[a[0].0 := a[0].1], a[1..], b);
    }
  }

  function KeysOf<V>(rows: seq<(string, V)>): (keys: set<string>)
    ensures forall k :: k in keys <==> exists i :: 0 <= i < |rows| && rows[i].0 == k
  {
    set i | 0 <= i < |rows| :: rows[i].0
  }

  lemma InsertedCount<V>(t: map<string, V>, rows: seq<(string, V)>)
    ensures |InsertEach(t, rows)| - |t| == |KeysOf(rows) - t.Keys|
  {
    InsertEachIsFirstWins(t, rows);
    var r := InsertEach(t, rows);
    assert r.Keys == t.Keys + (KeysOf(rows) - t.Keys);
    assert |r.Keys| == |t.Keys| + |KeysOf(rows) - t.Keys|;
  }

  // ---------- Chunks ----------

  function Concat<T>(chunks: seq<seq<T>>): seq<T> {
    if chunks == [] then [] else Concat(chunks[..|chunks| - 1]) + chunks[|chunks| - 1]
  }

  ghost predicate Chunking<T>(chunks: seq<seq<T>>, size: nat) {
    && (forall k :: 0 <= k < |chunks| ==> 1 <= |chunks[k]| <= size)
    && (forall k :: 0 <= k < |chunks| - 1 ==> |chunks[k]| == size)
  }

  // The chunks concatenate to the list; all but the last are full and none is empty.
  method Chunked<T>(list: seq<T>, size: nat) returns (chunks: seq<seq<T>>)
    requires size >= 1
    ensures Concat(chunks) == list && Chunking(chunks, size)
  {
    chunks := [];
    var i := 0;
    while i < |list|
      invariant i >= 0 && Concat(chunks) == list[..if i <= |list| then i else |list|]
      invariant forall k :: 0 <= k < |chunks| ==> 1 <= |chunks[k]| <= size
      invariant i < |list| ==> forall k :: 0 <= k < |chunks| ==> |chunks[k]| == size
      invariant forall k :: 0 <= k < |chunks| - 1 ==> |chunks[k]| == size
    {
      var chunk := list[i..if i + size <= |list| then i + size else |list|];
      assert (chunks + [chunk])[..|chunks + [chunk]| - 1] == chunks;
      chunks := chunks + [chunk];
      i := i + size;
    }
    assert list[..|list|] == list;
  }

  // ---------- The page ----------

  // The dict built from the page: a repeated id keeps its last URL.
  function LastUrls(rows: seq<Listed>): map<string, string> {
    if rows == [] then map[] else LastUrls(rows[..|rows| - 1])[rows[|rows| - 1].playerId := rows[|rows| - 1].playerUrl]
  }

  lemma {:induction false} LastUrlsHasAll(rows: seq<Listed>)
    ensures forall i :: 0 <= i < |rows| ==> rows[i].playerId in LastUrls(rows)
    ensures forall i :: 0 <= i < |rows| && (forall j :: i < j < |rows| ==> rows[j].playerId != rows[i].playerId) ==>
      rows[i].playerId in LastUrls(rows) && LastUrls(rows)[rows[i].playerId] == rows[i].playerUrl
  {
    if rows != [] {
      LastUrlsHasAll(rows[..|rows| - 1]);
    }
  }

  function PlayerRow(r: Listed, country: string): (string, Player) {
    (r.playerId, Player(r.fullName, r.careerStart, r.careerEnd, country))
  }

  // Every id of the page is in its dict.
  function UrlEntry(id: string, urls: map<string, string>, now: Time): (string, UrlRow) {
    (id, UrlRow(if id in urls then urls[id] else "", PROFILE, Unscraped, PROFILE_CADENCE_HOURS, PROFILE_PRIORITY, now,
                0, None, None, None))
  }

  function PlayerRows(rows: seq<Listed>, country: string): (r: seq<(string, Player)>)
    ensures |r| == |rows| && forall i :: 0 <= i < |rows| ==> r[i] == PlayerRow(rows[i], country)
  {
    seq(|rows|, i requires 0 <= i < |rows| => PlayerRow(rows[i], country))
  }

  function UrlEntries(rows: seq<(string, Player)>, urls: map<string, string>, now: Time): (r: seq<(string, UrlRow)>)
    ensures |r| == |rows| && forall i :: 0 <= i < |rows| ==> r[i] == UrlEntry(rows[i].0, urls, now)
  {
    seq(|rows|, i requires 0 <= i < |rows| => UrlEntry(rows[i].0, urls, now))
  }

  class DiscoveryStore {
    var players: map<string, Player>
    var urls: map<string, UrlRow>       // tbl_player_urls rows of type 'profile', by player
    var batches: map<string, nat>

    constructor ()
      ensures players == map[] && urls == map[] && batches == map[]
    {
      players, urls, batches := map[], map[], map[];
    }

    // One chunk: both INSERT statements, and the row count of the first.
    method InsertChunk(chunk: seq<(string, Player)>, urlMap: map<string, string>, now: Time, co: CoInsert)
      returns (inserted: nat)
      modifies this`players, this`urls
      ensures players == InsertEach(old(players), chunk) && inserted == |players| - |old(players)|
      ensures urls == if co.Inserts? then InsertEach(old(urls), UrlEntries(chunk, urlMap, now)) else old(urls)
    {
      ghost var t, u := players, urls;
      inserted := 0;
      for i := 0 to |chunk|
        invariant players == InsertEach(t, chunk[..i]) && inserted == |players| - |t|
        invariant urls == u
      {
        var (id, player) := chunk[i];
        InsertInParts(t, chunk[..i], [chunk[i]]);
        assert chunk[..i + 1] == chunk[..i] + [chunk[i]];
        if id !in players {
          players := players[id := player];
          inserted := inserted + 1;
        }
      }
      assert chunk[..|chunk|] == chunk;
      if co.Inserts? {
        InsertUrls(UrlEntries(chunk, urlMap, now));
      }
    }

    method InsertUrls(entries: seq<(string, UrlRow)>)
      modifies this`urls
      ensures urls == InsertEach(old(urls), entries)
    {
      for i := 0 to |entries|
        invariant urls == InsertEach(old(urls), entries[..i])
      {
        InsertInParts(old(urls), entries[..i], [entries[i]]);
        assert entries[..i + 1] == entries[..i] + [entries[i]];
        if entries[i].0 !in urls {
          urls := urls[entries[i].0 := entries[i].1];
        }
      }
      assert entries[..|entries|] == entries;
    }

    // The player table and the count do not depend on the chunk size: they are those of one insert of
    // the whole page. The registry gets the chunks whose insert ran, so the whole page in one insert if
    // all did; and the page fails as a whole, leaving nothing behind, exactly if one aborted.
    method BulkEnqueue(rows: seq<Listed>, country: string, chunkSize: nat, now: Time, co: nat -> CoInsert)
      returns (count: Option<nat>, ghost chunks: seq<seq<(string, Player)>>)
      requires chunkSize >= 1
      modifies this
      ensures Concat(chunks) == PlayerRows(rows, country) && Chunking(chunks, chunkSize)
      ensures count.None? <==> exists k :: 0 <= k < |chunks| && co(k).Aborts?
      ensures count.None? ==> players == old(players) && urls == old(urls) && batches == old(batches)
      ensures count.Some? ==>
        && players == InsertEach(old(players), PlayerRows(rows, country))
        && count == Some(|players| - |old(players)|)
        && urls == InsertEach(old(urls), UrlEntries(Registered(chunks, co), LastUrls(rows), now))
        && batches == if rows == [] then old(batches) else old(batches)[country := |rows|]
      ensures (forall k :: 0 <= k < |chunks| ==> co(k).Inserts?) ==>
        urls == InsertEach(old(urls), UrlEntries(PlayerRows(rows, country), LastUrls(rows), now))
    {
      if rows == [] {
        chunks := [];
        return Some(0), chunks;
      }
      var players0, urls0 := players, urls;
      var values := PlayerRows(rows, country);
      var list := Chunked(values, chunkSize);
      chunks := list;
      RegisteredAll(chunks, co);
      var inserted, aborted := InsertChunks(list, LastUrls(rows), now, co);
      if aborted {
        // the next statement raises, and the caller rolls back
        players, urls := players0, urls0;
        return None, chunks;
      }
      batches := batches[country := |rows|];
      count := Some(inserted);
    }

    method InsertChunks(chunks: seq<seq<(string, Player)>>, urlMap: map<string, string>, now: Time, co: nat -> CoInsert)
      returns (count: nat, aborted: bool)
      modifies this`players, this`urls
      ensures aborted <==> exists k :: 0 <= k < |chunks| && co(k).Aborts?
      ensures !aborted ==> players == InsertEach(old(players), Concat(chunks)) && count == |players| - |old(players)|
      ensures !aborted ==> urls == InsertEach(old(urls), UrlEntries(Registered(chunks, co), urlMap, now))
    {
      ghost var t, u := players, urls;
      count, aborted := 0, false;
      for k := 0 to |chunks|
        invariant players == InsertEach(t, Concat(chunks[..k])) && count == |players| - |t|
        invariant urls == InsertEach(u, UrlEntries(Registered(chunks[..k], co), urlMap, now))
        invariant forall j :: 0 <= j < k ==> !co(j).Aborts?
      {
        assert chunks[..k + 1][..k] == chunks[..k];
        RegisteredSnoc(chunks, co, k);
        InsertInParts(t, Concat(chunks[..k]), chunks[k]);
        EntriesInParts(u, Registered(chunks[..k], co), chunks[k], urlMap, now);
        var inserted := InsertChunk(chunks[k], urlMap, now, co(k));
        count := count + inserted;
        if co(k).Aborts? {
          return count, true;
        }
      }
      assert chunks[..|chunks|] == chunks;
    }
  }

  // The players of the chunks whose registry insert ran.
  function Registered<T>(chunks: seq<seq<T>>, co: nat -> CoInsert): seq<T> {
    if chunks == [] then []
    else Registered(chunks[..|chunks| - 1], co) + if co(|chunks| - 1).Inserts? then chunks[|chunks| - 1] else []
  }

  lemma RegisteredSnoc<T>(chunks: seq<seq<T>>, co: nat -> CoInsert, k: nat)
    requires k < |chunks|
    ensures Registered(chunks[..k + 1], co) ==
            if co(k).Inserts? then Registered(chunks[..k], co) + chunks[k] else Registered(chunks[..k], co)
  {
    assert chunks[..k + 1][..k] == chunks[..k];
  }

  lemma {:induction false} RegisteredAll<T>(chunks: seq<seq<T>>, co: nat -> CoInsert)
    ensures (forall k :: 0 <= k < |chunks| ==> co(k).Inserts?) ==> Registered(chunks, co) == Concat(chunks)
  {
    if chunks != [] {
      RegisteredAll(chunks[..|chunks| - 1], co);
    }
  }

  lemma EntriesInParts(u: map<string, UrlRow>, a: seq<(string, Player)>, b: seq<(string, Player)>,
                       urls: map<string, string>, now: Time)
    ensures InsertEach(u, UrlEntries(a + b, urls, now)) ==
            InsertEach(InsertEach(u, UrlEntries(a, urls, now)), UrlEntries(b, urls, now))
  {
    assert UrlEntries(a + b, urls, now) == UrlEntries(a, urls, now) + UrlEntries(b, urls, now);
    InsertInParts(u, UrlEntries(a, urls, now), UrlEntries(b, urls, now));
  }

  // A first-wins insert is a function of the page: any two chunk sizes leave the same table.
  lemma FirstWinsIsUnique<V>(t: map<string, V>, rows: seq<(string, V)>, a: map<string, V>, b: map<string, V>)
    requires FirstWins(t, rows, a) && FirstWins(t, rows, b)
    ensures a == b
  {
    forall k | k in a ensures k in b && a[k] == b[k] {
      if k !in t {
        var i := FirstIndex(rows, k);
      }
    }
  }

  lemma {:induction false} FirstIndex<V>(rows: seq<(string, V)>, k: string) returns (i: nat)
    requires exists j :: 0 <= j < |rows| && rows[j].0 == k
    ensures FirstAt(rows, i) && rows[i].0 == k
  {
    if rows[0].0 == k {
      i := 0;
    } else {
      var j :| 0 <= j < |rows| && rows[j].0 == k;
      assert rows[1..][j - 1].0 == k;
      i := FirstIndex(rows[1..], k);
      i := i + 1;
      forall j | 0 <= j < i ensures rows[j].0 != rows[i].0 {
        assert j > 0 ==> rows[1..][j - 1] == rows[j];
      }
    }
  }

  // So the players of a page, repeated ids or not, come out as a first-wins insert, and the count is
  // the number of distinct new ids.
  lemma PageOutcome(t: map<string, Player>, rows: seq<Listed>, country: string)
    ensures var values := PlayerRows(rows, country); var r := InsertEach(t, values);
      && FirstWins(t, values, r)
      && |r| - |t| == |KeysOf(values) - t.Keys|
  {
    InsertEachIsFirstWins(t, PlayerRows(rows, country));
    InsertedCount(t, PlayerRows(rows, country));
  }

  // A new id's player row has the columns of its first entry on the page and the page's country.
  lemma NewPlayerRow(t: map<string, Player>, rows: seq<Listed>, country: string, i: nat)
    requires i < |rows| && rows[i].playerId !in t && forall j :: 0 <= j < i ==> rows[j].playerId != rows[i].playerId
    ensures var r := InsertEach(t, PlayerRows(rows, country)); var id := rows[i].playerId;
      id in r && r[id] == Player(rows[i].fullName, rows[i].careerStart, rows[i].careerEnd, country)
  {
    FirstRowWins(t, PlayerRows(rows, country), i);
  }

  // While the player row of a new id is its first on the page, its registry row has its last URL.
  lemma RegistryGetsLastUrl(u: map<string, UrlRow>, rows: seq<Listed>, country: string, now: Time, i: nat)
    requires i < |rows| && rows[i].playerId !in u
    requires forall j :: i < j < |rows| ==> rows[j].playerId != rows[i].playerId
    ensures var v := InsertEach(u, UrlEntries(PlayerRows(rows, country), LastUrls(rows), now));
      && rows[i].playerId in v
      && v[rows[i].playerId] ==
           UrlRow(rows[i].playerUrl, "profile", Unscraped, 168, 5, now, 0, None, None, None)
  {
    var id := rows[i].playerId;
    var entries := UrlEntries(PlayerRows(rows, country), LastUrls(rows), now);
    assert entries[i].0 == id;
    var first := FirstIndex(entries, id);
    FirstRowWins(u, entries, first);
    LastUrlsHasAll(rows);
  }

  // A page that lists one player twice: the player row is the first, its registry row has the second URL.
  lemma APlayerListedTwice(first: Listed, second: Listed, country: string, now: Time)
    requires first.playerId == second.playerId
    requires first.fullName != second.fullName && first.playerUrl != second.playerUrl
    ensures var id := first.playerId; var values := PlayerRows([first, second], country);
      var players := InsertEach(map[], values);
      var urls := InsertEach(map[], UrlEntries(values, LastUrls([first, second]), now));
      && id in players && players[id].fullName == first.fullName
      && id in urls && urls[id].url == second.playerUrl
  {
    var rows := [first, second];
    FirstRowWins(map[], PlayerRows(rows, country), 0);
    RegistryGetsLastUrl(map[], rows, country, now, 1);
  }

  lemma FirstRowWins<V>(t: map<string, V>, rows: seq<(string, V)>, i: nat)
    requires FirstAt(rows, i) && rows[i].0 !in t
    ensures rows[i].0 in InsertEach(t, rows) && InsertEach(t, rows)[rows[i].0] == rows[i].1
  {
    InsertEachIsFirstWins(t, rows);
  }
}
