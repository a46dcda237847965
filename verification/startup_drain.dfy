/**
 _startup_drain: schedule every due registry row, a batch at a time.
 */
module StartupDrain {
  import opened Tables
  import opened QueueOps
  import opened QueueRepository
  import Lifecycle
  import Pick

  // ---------- The job of a registry row ----------

  ghost function JobOf(db: Db, u: UrlId): Option<JobId> {
    if exists id :: IsPlayerJob(db, id) && db.queue[id].fkUrl == Some(u) then
      var id :| IsPlayerJob(db, id) && db.queue[id].fkUrl == Some(u);
      Some(id)
    else None
  }

  // The queue row scheduled from a registry row, if there is one: its lifecycle state.
  ghost function LifeOf(db: Db, u: UrlId): Option<QueueRow> {
    match JobOf(db, u)
    case None => None
    case Some(id) => Some(db.queue[id])
  }

  lemma JobOfIs(db: Db, id: JobId, u: UrlId)
    requires WellKeyed(db) && IsPlayerJob(db, id) && db.queue[id].fkUrl == Some(u)
    ensures JobOf(db, u) == Some(id)
  {
    OneJobPerUrl(db, id, JobOf(db, u).value);
  }

  predicate Idle(life: Option<QueueRow>) {
    life.None? || life.value.status == Done
  }

  lemma SchedulableIsIdle(db: Db, u: UrlId)
    requires WellKeyed(db)
    ensures Schedulable(db, u) <==>
      u in db.urls && db.urls[u].urlType == PROFILE && db.urls[u].status != Stale && Idle(LifeOf(db, u))
  {
    forall id | IsPlayerJob(db, id) && db.queue[id].fkUrl == Some(u) ensures JobOf(db, u) == Some(id) {
      JobOfIs(db, id, u);
    }
  }

  // What scheduling makes of a registry row's job.
  function Scheduled(life: Option<QueueRow>, url: string, u: UrlId): QueueRow {
    match life
    case None => FreshRow(url, u)
    case Some(q) => Reactivated(q, u)
  }

  // `db` is `db0` with exactly the registry rows in `drained` scheduled.
  ghost predicate Drained(db0: Db, db: Db, drained: set<UrlId>) {
    && db.urls == db0.urls
    && drained <= db0.urls.Keys
    && (forall u :: u in db0.urls ==>
          LifeOf(db, u) == if u in drained then Some(Scheduled(LifeOf(db0, u), db0.urls[u].url, u)) else LifeOf(db0, u))
    && (forall id :: id in db0.queue && db0.queue[id].status != Done ==>
          id in db.queue && db.queue[id] == db0.queue[id])
  }

  lemma EnqueueSetsOneLife(db: Db, u: UrlId, conflict: Option<JobId>, maxRetries: int)
    requires Lifecycle.PairInv(db, maxRetries) && maxRetries >= 1
    requires Schedulable(db, u) && IsConflict(db, db.urls[u].url, conflict)
    ensures Lifecycle.PairInv(Enqueue(db, u, conflict), maxRetries)
    ensures Drained(db, Enqueue(db, u, conflict), {u})
    ensures conflict.Some? ==> db.queue[conflict.value].status == Done
  {
    var db' := Enqueue(db, u, conflict);
    Lifecycle.PairKept(db, Lifecycle.Schedule(u, conflict), maxRetries);
    Lifecycle.ScheduleTarget(db, u, conflict);
    var target := if conflict.Some? then conflict.value else db.nextId;
    forall v | v in db.urls
      ensures LifeOf(db', v) == if v == u then Some(Scheduled(LifeOf(db, u), db.urls[u].url, u)) else LifeOf(db, v)
    {
      if v == u {
        JobOfIs(db', target, u);
        if conflict.Some? {
          JobOfIs(db, target, u);
        }
      } else if id :| IsPlayerJob(db, id) && db.queue[id].fkUrl == Some(v) {
        JobOfIs(db, id, v);
        JobOfIs(db', id, v);
      } else {
        assert JobOf(db', v) == None;
      }
    }
  }

  // ---------- ORDER BY priority, next_scrape_at, id ----------

  function Sooner(urls: map<UrlId, UrlRow>): (UrlId, UrlId) -> bool {
    (x: UrlId, y: UrlId) =>
      if x in urls && y in urls && urls[x].priority != urls[y].priority then urls[x].priority < urls[y].priority
      else if x in urls && y in urls && urls[x].nextScrapeAt != urls[y].nextScrapeAt
      then urls[x].nextScrapeAt < urls[y].nextScrapeAt
      else if (x in urls) != (y in urls) then x in urls
      else x < y
  }

  lemma SoonerIsTransitive(urls: map<UrlId, UrlRow>, x: UrlId, y: UrlId, z: UrlId)
    requires Sooner(urls)(x, y) && Sooner(urls)(y, z)
    ensures Sooner(urls)(x, z)
  {
  }

  lemma SoonerIsTotal(urls: map<UrlId, UrlRow>)
    ensures Pick.StrictTotal(Sooner(urls))
  {
    forall x, y, z | Sooner(urls)(x, y) && Sooner(urls)(y, z) ensures Sooner(urls)(x, z) {
      SoonerIsTransitive(urls, x, y, z);
    }
  }

  ghost function DueRows(db: Db, now: Time): (due: set<UrlId>)
    ensures forall u :: u in due <==> Eligible(db, u, now)
  {
    set u | u in db.urls && Eligible(db, u, now)
  }

  ghost function IdleRows(db: Db): (idle: set<UrlId>)
    ensures forall u :: u in idle <==> Schedulable(db, u)
  {
    set u | u in db.urls && Schedulable(db, u)
  }

  // ---------- The statement and the loop ----------

  // One selected row of the INSERT ... ON CONFLICT DO UPDATE: insert, reactivate, or nothing.
  method EnqueueRow(store: QueueStore, u: UrlId, ghost maxRetries: int) returns (returned: bool)
    requires maxRetries >= 1 && Lifecycle.PairInv(store.Contents(), maxRetries)
    requires Schedulable(store.Contents(), u)
    modifies store`queue, store`nextId
    ensures Lifecycle.PairInv(store.Contents(), maxRetries)
    ensures Drained(old(store.Contents()), store.Contents(), {u}) && returned
  {
    ghost var before := store.Contents();
    var conflict := FindConflict(store, store.urls[u].url);
    EnqueueSetsOneLife(before, u, conflict, maxRetries);
    returned := false;
    match conflict {
      case None =>
        store.queue := store.queue[store.nextId := FreshRow(store.urls[u].url, u)];
        returned := true;
      case Some(id) =>
        if store.queue[id].status == Done {
          store.queue := store.queue[id := Reactivated(store.queue[id], u)];
          returned := true;
        }
    }
    store.nextId := store.nextId + 1;
    assert store.Contents() == Enqueue(before, u, conflict);
  }

  // The next selected row, given what the batch has scheduled so far.
  method EnqueueNext(store: QueueStore, u: UrlId, ghost db0: Db, ghost batch: set<UrlId>, ghost maxRetries: int)
    returns (returned: bool)
    requires maxRetries >= 1 && Lifecycle.PairInv(store.Contents(), maxRetries)
    requires WellKeyed(db0) && Drained(db0, store.Contents(), batch) && Schedulable(db0, u) && u !in batch
    modifies store`queue, store`nextId
    ensures Lifecycle.PairInv(store.Contents(), maxRetries)
    ensures Drained(db0, store.Contents(), batch + {u}) && returned
  {
    ghost var before := store.Contents();
    StillSchedulable(db0, before, batch, u);
    returned := EnqueueRow(store, u, maxRetries);
    DrainedCompose(db0, before, store.Contents(), batch, {u});
  }

  lemma PickedOnce(due: set<UrlId>, picked: seq<UrlId>, less: (UrlId, UrlId) -> bool, k: nat)
    requires Pick.StrictTotal(less) && Pick.IsFirst(due, less, k, picked)
    ensures Once(picked) && Members(picked) <= due && |Members(picked)| == |picked|
    ensures picked == [] && k >= 1 ==> due == {}
  {
    forall i, j | 0 <= j < i < |picked| ensures picked[j] != picked[i] {
      assert less(picked[j], picked[i]);
    }
    assert forall u :: u in Members(picked) ==> u in picked;
    Pick.DistinctCount(picked, less);
  }

  // INSERT ... SELECT ... ON CONFLICT ... RETURNING.
  method DrainBatch(store: QueueStore, batchSize: nat, now: Time, ghost maxRetries: int)
    returns (n: nat, ghost batch: set<UrlId>)
    requires maxRetries >= 1 && Lifecycle.PairInv(store.Contents(), maxRetries)
    modifies store`queue, store`nextId
    ensures Lifecycle.PairInv(store.Contents(), maxRetries)
    ensures batch <= DueRows(old(store.Contents()), now) && n == |batch|
    ensures n == 0 && batchSize >= 1 ==> DueRows(old(store.Contents()), now) == {}
    ensures Drained(old(store.Contents()), store.Contents(), batch)
  {
    var picked, due := SelectDue(store, batchSize, now);
    batch := Members(picked);
    DueRowsAreIdle(store.Contents(), now);
    DrainedNothing(store.Contents());
    n := EnqueueAll(store, picked, store.Contents(), {}, maxRetries);
    assert {} + batch == batch;
  }

  lemma DueRowsAreIdle(db: Db, now: Time)
    ensures DueRows(db, now) <= IdleRows(db)
  {
  }

  lemma DrainedNothing(db: Db)
    ensures Drained(db, db, {})
  {
  }

  function Members(picked: seq<UrlId>): (members: set<UrlId>)
    ensures members == set u | u in picked
  {
    set u | u in picked
  }

  method EnqueueAll(store: QueueStore, picked: seq<UrlId>, ghost db0: Db, ghost batch: set<UrlId>,
                    ghost maxRetries: int)
    returns (n: nat)
    requires maxRetries >= 1 && Lifecycle.PairInv(store.Contents(), maxRetries)
    requires WellKeyed(db0) && Drained(db0, store.Contents(), batch)
    requires Members(picked) <= IdleRows(db0) - batch && Once(picked)
    modifies store`queue, store`nextId
    ensures Lifecycle.PairInv(store.Contents(), maxRetries)
    ensures Drained(db0, store.Contents(), batch + Members(picked)) && n == |picked|
  {
    MembersSplit(picked, batch);
    if picked == [] {
      return 0;
    }
    var returned := EnqueueNext(store, picked[0], db0, batch, maxRetries);
    n := EnqueueAll(store, picked[1..], db0, batch + {picked[0]}, maxRetries);
    if returned {
      n := n + 1;
    }
  }

  ghost predicate Once(picked: seq<UrlId>) {
    forall i, j :: 0 <= j < i < |picked| ==> picked[j] != picked[i]
  }

  lemma MembersSplit(picked: seq<UrlId>, batch: set<UrlId>)
    requires Once(picked)
    ensures picked == [] ==> batch + Members(picked) == batch
    ensures picked != [] ==>
      && Members(picked[1..]) == Members(picked) - {picked[0]} && picked[0] in Members(picked)
      && batch + {picked[0]} + Members(picked[1..]) == batch + Members(picked)
      && Once(picked[1..])
  {
    if picked != [] {
      assert picked == [picked[0]] + picked[1..];
      assert picked[0] !in picked[1..];
    }
  }

  // Earlier in the order: by priority, then by due time, then by id.
  predicate Precedes(urls: map<UrlId, UrlRow>, x: UrlId, y: UrlId)
    requires x in urls && y in urls
  {
    || urls[x].priority < urls[y].priority
    || (urls[x].priority == urls[y].priority && urls[x].nextScrapeAt < urls[y].nextScrapeAt)
    || (urls[x].priority == urls[y].priority && urls[x].nextScrapeAt == urls[y].nextScrapeAt && x < y)
  }

  // What is picked precedes every due row that is not, and is picked in order.
  lemma PickedPrecede(urls: map<UrlId, UrlRow>, due: set<UrlId>, picked: seq<UrlId>, k: nat)
    requires due <= urls.Keys && Pick.IsFirst(due, Sooner(urls), k, picked)
    ensures forall i :: 0 <= i < |picked| ==> picked[i] in urls
    ensures forall i, j :: 0 <= i < j < |picked| ==> Precedes(urls, picked[i], picked[j])
    ensures forall i, v :: 0 <= i < |picked| && v in due && v !in picked ==> Precedes(urls, picked[i], v)
  {
    assert forall i :: 0 <= i < |picked| ==> picked[i] in due;
    forall i, j | 0 <= i < j < |picked| ensures Precedes(urls, picked[i], picked[j]) {
      assert Sooner(urls)(picked[i], picked[j]);
    }
    forall i, v | 0 <= i < |picked| && v in due && v !in picked ensures Precedes(urls, picked[i], v) {
      assert Sooner(urls)(picked[i], v);
    }
  }

  lemma MembersPrecede(urls: map<UrlId, UrlRow>, due: set<UrlId>, picked: seq<UrlId>, u: UrlId, v: UrlId)
    requires due <= urls.Keys && u in Members(picked) && v in due - Members(picked)
    requires forall i :: 0 <= i < |picked| ==> picked[i] in urls
    requires forall i, v :: 0 <= i < |picked| && v in due && v !in picked ==> Precedes(urls, picked[i], v)
    ensures u in urls && Precedes(urls, u, v)
  {
    var i :| 0 <= i < |picked| && picked[i] == u;
  }

  // A registry row is due: a profile URL that is not STALE, whose time has come, and to which no
  // player_info job is linked that is not DONE.
  lemma DueMeans(db: Db, u: UrlId, now: Time)
    ensures u in DueRows(db, now) <==>
      && u in db.urls && db.urls[u].urlType == "profile" && (db.urls[u].status.Unscraped? || db.urls[u].status.Active?)
      && db.urls[u].nextScrapeAt <= now
      && (forall id :: id in db.queue && db.queue[id].jobType == "player_info" && db.queue[id].fkUrl == Some(u) ==>
            db.queue[id].status.Done?)
  {
  }

  // What scheduling makes of the job: a new row, or the old one started afresh.
  lemma ScheduledMeans(life: Option<QueueRow>, url: string, u: UrlId)
    ensures var q := Scheduled(life, url, u);
      && q.status == Pending && q.retryCount == 0 && q.errorMessage == None && q.lockedAt == None
      && q.completedAt == None && q.fkUrl == Some(u)
      && (life.None? ==> q.url == url && q.domain == "fbref.com" && q.jobType == "player_info")
      && (life.Some? ==> q.url == life.value.url && q.domain == life.value.domain && q.jobType == life.value.jobType)
  {
  }

  // SELECT ... WHERE ... ORDER BY ... LIMIT.
  method SelectDue(store: QueueStore, batchSize: nat, now: Time) returns (picked: seq<UrlId>, ghost due: set<UrlId>)
    ensures due == DueRows(store.Contents(), now)
    ensures Pick.IsFirst(due, Sooner(store.urls), batchSize, picked)
    ensures Once(picked)
    ensures Members(picked) <= due && |Members(picked)| == |picked|
    ensures picked == [] && batchSize >= 1 ==> due == {}
    ensures forall u, v :: u in Members(picked) && v in due - Members(picked) ==> Precedes(store.urls, u, v)
  {
    var db := Db(store.queue, store.urls, store.nextId);
    due := DueRows(db, now);
    var rows := set u | u in store.urls && Eligible(db, u, now);
    assert rows == due;
    picked := PickSoonest(store.urls, rows, batchSize);
  }

  method PickSoonest(urls: map<UrlId, UrlRow>, due: set<UrlId>, k: nat) returns (picked: seq<UrlId>)
    requires due <= urls.Keys
    ensures Pick.IsFirst(due, Sooner(urls), k, picked) && Once(picked)
    ensures Members(picked) <= due && |Members(picked)| == |picked|
    ensures picked == [] && k >= 1 ==> due == {}
    ensures forall u, v :: u in Members(picked) && v in due - Members(picked) ==> Precedes(urls, u, v)
  {
    SoonerIsTotal(urls);
    picked := Pick.TakeFirst(due, Sooner(urls), k);
    PickedOnce(due, picked, Sooner(urls), k);
    PickedPrecede(urls, due, picked, k);
    forall u, v | u in Members(picked) && v in due - Members(picked) ensures Precedes(urls, u, v) {
      MembersPrecede(urls, due, picked, u, v);
    }
  }

  lemma StillSchedulable(db0: Db, db: Db, drained: set<UrlId>, u: UrlId)
    requires WellKeyed(db0) && WellKeyed(db) && Drained(db0, db, drained) && u in db0.urls && u !in drained
    ensures Schedulable(db, u) <==> Schedulable(db0, u)
  {
    SchedulableIsIdle(db0, u);
    SchedulableIsIdle(db, u);
  }

  lemma NoLongerSchedulable(db0: Db, db: Db, drained: set<UrlId>, u: UrlId)
    requires WellKeyed(db0) && WellKeyed(db) && Drained(db0, db, drained) && u in drained
    ensures !Schedulable(db, u)
  {
    SchedulableIsIdle(db, u);
  }

  method FindConflict(store: QueueStore, url: string) returns (conflict: Option<JobId>)
    ensures IsConflict(store.Contents(), url, conflict)
  {
    if id :| id in store.queue && store.queue[id].jobType == PLAYER_INFO && store.queue[id].url == url {
      return Some(id);
    }
    return None;
  }

  // Whatever the batch size and however the clock moves on between batches: the drain terminates,
  // returns the number of registry rows due at its last look that were idle at the start, schedules
  // exactly those, leaves every job that was not DONE untouched, and leaves nothing due.
  method Drain(store: QueueStore, batchSize: nat, clock: nat -> Time, ghost maxRetries: int)
    returns (total: nat, ghost last: Time, ghost rounds: nat)
    requires maxRetries >= 1 && Lifecycle.PairInv(store.Contents(), maxRetries)
    requires forall i: nat, j: nat :: i <= j ==> clock(i) <= clock(j)
    requires batchSize >= 1
    modifies store`queue, store`nextId
    ensures Lifecycle.PairInv(store.Contents(), maxRetries)
    ensures total == |DueRows(old(store.Contents()), last)| && last == clock(rounds)
    ensures Drained(old(store.Contents()), store.Contents(), DueRows(old(store.Contents()), last))
    ensures DueRows(store.Contents(), last) == {}
  {
    ghost var db0 := store.Contents();
    ghost var drained: set<UrlId> := {};
    var i := 0;
    total, last, rounds := 0, clock(0), 0;
    while true
      invariant Lifecycle.PairInv(store.Contents(), maxRetries)
      invariant Drained(db0, store.Contents(), drained) && total == |drained|
      invariant drained <= DueRows(db0, last) && last == clock(rounds) && rounds <= i
      decreases |IdleRows(store.Contents())|
    {
      LaterDueRows(db0, last, clock(i));
      last, rounds := clock(i), i;
      var n;
      n, drained := DrainRound(store, batchSize, clock(i), db0, drained, maxRetries);
      if n == 0 {
        break;
      }
      total := total + n;
      i := i + 1;
    }
  }

  // One iteration, given what the drain has scheduled so far.
  method DrainRound(store: QueueStore, batchSize: nat, now: Time, ghost db0: Db, ghost drained: set<UrlId>,
                    ghost maxRetries: int)
    returns (n: nat, ghost drained': set<UrlId>)
    requires maxRetries >= 1 && Lifecycle.PairInv(store.Contents(), maxRetries) && batchSize >= 1
    requires WellKeyed(db0) && Drained(db0, store.Contents(), drained) && drained <= DueRows(db0, now)
    modifies store`queue, store`nextId
    ensures Lifecycle.PairInv(store.Contents(), maxRetries)
    ensures Drained(db0, store.Contents(), drained') && |drained'| == |drained| + n
    ensures drained' <= DueRows(db0, now)
    ensures n == 0 ==> drained' == DueRows(db0, now) && DueRows(store.Contents(), now) == {}
    ensures n > 0 ==> |IdleRows(store.Contents())| < |IdleRows(old(store.Contents()))|
  {
    ghost var before := store.Contents();
    ghost var batch;
    n, batch := DrainBatch(store, batchSize, now, maxRetries);
    drained' := drained + batch;
    RoundOutcome(db0, before, store.Contents(), drained, batch, now);
  }

  lemma RoundOutcome(db0: Db, before: Db, after: Db, drained: set<UrlId>, batch: set<UrlId>, now: Time)
    requires WellKeyed(db0) && WellKeyed(before) && WellKeyed(after)
    requires Drained(db0, before, drained) && Drained(before, after, batch) && batch <= DueRows(before, now)
    requires drained <= DueRows(db0, now) && (|batch| == 0 ==> DueRows(before, now) == {})
    ensures Drained(db0, after, drained + batch) && |drained + batch| == |drained| + |batch|
    ensures drained + batch <= DueRows(db0, now)
    ensures |batch| == 0 ==> drained + batch == DueRows(db0, now) && DueRows(after, now) == {}
    ensures |batch| > 0 ==> |IdleRows(after)| < |IdleRows(before)|
  {
    DrainProgress(db0, before, after, drained, batch, now);
  }

  lemma LaterDueRows(db: Db, s: Time, t: Time)
    requires s <= t
    ensures DueRows(db, s) <= DueRows(db, t)
  {
  }

  lemma SchedulableAfter(db0: Db, db: Db, drained: set<UrlId>)
    requires WellKeyed(db0) && WellKeyed(db) && Drained(db0, db, drained)
    ensures IdleRows(db) == IdleRows(db0) - drained
    ensures forall now :: DueRows(db, now) == DueRows(db0, now) - drained
  {
    forall u | u in db0.urls ensures Schedulable(db, u) <==> Schedulable(db0, u) && u !in drained {
      if u in drained { NoLongerSchedulable(db0, db, drained, u); } else { StillSchedulable(db0, db, drained, u); }
    }
  }

  lemma DrainedCompose(a: Db, b: Db, c: Db, x: set<UrlId>, y: set<UrlId>)
    requires Drained(a, b, x) && Drained(b, c, y) && x !! y
    ensures Drained(a, c, x + y)
  {
    forall id | id in a.queue && a.queue[id].status != Done ensures id in c.queue && c.queue[id] == a.queue[id] {
      assert b.queue[id].status != Done;
    }
  }

  lemma DrainProgress(db0: Db, before: Db, after: Db, drained: set<UrlId>, batch: set<UrlId>, now: Time)
    requires WellKeyed(db0) && WellKeyed(before) && WellKeyed(after)
    requires Drained(db0, before, drained) && Drained(before, after, batch) && batch <= DueRows(before, now)
    ensures batch !! drained && |drained + batch| == |drained| + |batch|
    ensures Drained(db0, after, drained + batch)
    ensures batch <= DueRows(db0, now)
    ensures DueRows(db0, now) <= drained + DueRows(before, now)
    ensures batch != {} ==> |IdleRows(after)| < |IdleRows(before)|
    ensures DueRows(after, now) <= DueRows(before, now)
  {
    SchedulableAfter(db0, before, drained);
    SchedulableAfter(before, after, batch);
    DrainedCompose(db0, before, after, drained, batch);
    if batch != {} {
      var u := Pick.SomeMember(batch);
      assert u in IdleRows(before);
      Pick.SubsetCount(IdleRows(after), IdleRows(before) - {u});
    }
  }

  // The outcome does not depend on the batch size: two drains of equal tables that last looked at the
  // same time schedule the same number of rows and leave every registry row's job in the same state.
  method DrainBoth(a: QueueStore, b: QueueStore, sizeA: nat, sizeB: nat, clockA: nat -> Time, clockB: nat -> Time,
                   ghost maxRetries: int)
    returns (totalA: nat, totalB: nat, ghost lastA: Time, ghost lastB: Time)
    requires a != b && a.Contents() == b.Contents()
    requires maxRetries >= 1 && Lifecycle.PairInv(a.Contents(), maxRetries)
    requires forall i: nat, j: nat :: i <= j ==> clockA(i) <= clockA(j) && clockB(i) <= clockB(j)
    requires sizeA >= 1 && sizeB >= 1
    modifies a`queue, a`nextId, b`queue, b`nextId
    ensures lastA == lastB ==> totalA == totalB && a.urls == b.urls
    ensures lastA == lastB ==> forall u :: u in a.urls ==> LifeOf(a.Contents(), u) == LifeOf(b.Contents(), u)
  {
    ghost var rounds;
    totalA, lastA, rounds := Drain(a, sizeA, clockA, maxRetries);
    totalB, lastB, rounds := Drain(b, sizeB, clockB, maxRetries);
  }

  // A second drain at once finds nothing.
  method DrainTwice(store: QueueStore, batchSize: nat, clock: nat -> Time, ghost maxRetries: int)
    returns (first: nat, second: nat)
    requires maxRetries >= 1 && Lifecycle.PairInv(store.Contents(), maxRetries)
    requires batchSize >= 1 && forall i: nat :: clock(i) == clock(0)
    modifies store`queue, store`nextId
    ensures first == |DueRows(old(store.Contents()), clock(0))| && second == 0
  {
    ghost var last, rounds;
    first, last, rounds := Drain(store, batchSize, clock, maxRetries);
    second, last, rounds := Drain(store, batchSize, clock, maxRetries);
  }
}
