/**
 The operations on queue and registry as one table: for each, which rows it touches and every column
 that it changes in them.
 */
module Transitions {
  import opened Tables
  import opened Lifecycle
  import opened QueueOps

  // What becomes of queue row `q`, stored under `id`.
  predicate QueueRowMoves(db: Db, op: Op, maxRetries: int, id: JobId, q: QueueRow, q': QueueRow) {
    match op
    case ClaimJob(i, now) =>
      if i == id && q.status == Pending && q.jobType == "player_info"
      then q' == q.(status := InProgress, lockedAt := Some(now)) else q' == q
    case MarkInProgress(i, now) =>
      if i == id then q' == q.(status := InProgress, lockedAt := Some(now)) else q' == q
    case MarkDone(i, now) =>
      if i == id then q' == q.(status := Done, completedAt := Some(now), lockedAt := None) else q' == q
    case Success(i, now) =>
      if i == id then q' == q.(status := Done, completedAt := Some(now), lockedAt := None) else q' == q
    case MarkFailedForever(i, error) =>
      if i == id
      then q' == q.(status := Pending, retryCount := q.retryCount + 1, errorMessage := Some(error), lockedAt := None)
      else q' == q
    case MarkFailed(i, error, now) =>
      if i == id then FailureMoves(q, error, maxRetries, now, q') else q' == q
    case RecordJobFailure(i, error, now) =>
      if i == id && q.jobType == "player_info" && (q.fkUrl.Some? ==> q.fkUrl.value in db.urls)
      then FailureMoves(q, error, maxRetries, now, q') else q' == q
    case ReleaseToPending(i) =>
      if i == id && q.status == InProgress && q.jobType == "player_info"
      then q' == q.(status := Pending, lockedAt := None) else q' == q
    case RecoverStaleRows =>
      if q.status == InProgress && q.jobType == "player_info"
      then q' == q.(status := Pending, lockedAt := None) else q' == q
    case RecoverLockedBefore(cutoff) =>
      if q.status == InProgress && q.jobType == "player_info" && q.lockedAt.Some? && q.lockedAt.value < cutoff
      then q' == q.(status := Pending, lockedAt := None) else q' == q
    case RecoverDomain(domain, cutoff) =>
      if q.status == InProgress && q.domain == domain && q.lockedAt.Some? && q.lockedAt.value < cutoff
      then q' == q.(status := Pending, lockedAt := None) else q' == q
    case RecoverFailedRows =>
      if q.status == Failed && q.jobType == "player_info"
      then q' == q.(status := Pending, retryCount := 0, errorMessage := None, completedAt := None) else q' == q
    case RecoverFailedJob(i, _) =>
      if i == id && BothRecoverable(db, q)
      then q' == q.(status := Pending, retryCount := 0, errorMessage := None, completedAt := None, lockedAt := None)
      else q' == q
    case Schedule(u, conflict) =>
      if conflict == Some(id) && u in db.urls && q.status == Done
      then q' == q.(status := Pending, retryCount := 0, errorMessage := None, completedAt := None, lockedAt := None,
                    fkUrl := Some(u))
      else q' == q
  }

  // One more failure: FAILED and completed at the ceiling, PENDING below it, unlocked either way.
  predicate FailureMoves(q: QueueRow, error: string, maxRetries: int, now: Time, q': QueueRow) {
    && q' == q.(status := q'.status, retryCount := q.retryCount + 1, errorMessage := Some(error), lockedAt := None,
                completedAt := q'.completedAt)
    && (q.retryCount + 1 >= maxRetries ==> q'.status == Failed && q'.completedAt == Some(now))
    && (q.retryCount + 1 < maxRetries ==> q'.status == Pending && q'.completedAt == q.completedAt)
  }

  // A FAILED player_info job whose registry row exists and is STALE.
  predicate BothRecoverable(db: Db, q: QueueRow) {
    && q.status == Failed && q.jobType == "player_info"
    && q.fkUrl.Some? && q.fkUrl.value in db.urls && db.urls[q.fkUrl.value].status == Stale
  }

  // The queue row that the operation takes along to the registry row `u`.
  predicate Takes(db: Db, op: Op, u: UrlId) {
    && (op.Success? || op.RecordJobFailure? || op.RecoverFailedJob?)
    && op.id in db.queue && db.queue[op.id].fkUrl == Some(u)
    && (!op.Success? ==> db.queue[op.id].jobType == "player_info")
    && (op.RecoverFailedJob? ==> BothRecoverable(db, db.queue[op.id]))
  }

  // What becomes of registry row `r`, stored under `u`.
  predicate UrlRowMoves(db: Db, op: Op, maxRetries: int, u: UrlId, r: UrlRow, r': UrlRow) {
    if !Takes(db, op, u) then r' == r
    else match op
      case Success(_, now) =>
        r' == r.(status := Active, retryCount := 0, lastError := None, lastScrapeStatus := Some("SUCCESS"),
                 lastScrapedAt := Some(now), nextScrapeAt := now + 3600 * r.cadenceHours)
      case RecordJobFailure(id, error, _) =>
        var failures := db.queue[id].retryCount + 1;
        r' == r.(status := if failures < maxRetries then r.status else Stale, retryCount := failures,
                 lastError := Some(error), lastScrapeStatus := Some("FAILURE"))
      case RecoverFailedJob(_, now) =>
        r' == r.(status := Unscraped, retryCount := 0, lastError := None, nextScrapeAt := now)
      case _ => true
  }

  lemma QueueTable(db: Db, op: Op, maxRetries: int, id: JobId)
    requires id in db.queue && id < db.nextId
    ensures id in Apply(db, op, maxRetries).queue
    ensures QueueRowMoves(db, op, maxRetries, id, db.queue[id], Apply(db, op, maxRetries).queue[id])
  {
    if OnOneJob(op) {
      OneJobTable(db, op, maxRetries, id);
    } else {
      BulkTable(db, op, maxRetries, id);
    }
  }

  lemma OneJobTable(db: Db, op: Op, maxRetries: int, id: JobId)
    requires id in db.queue && OnOneJob(op)
    ensures id in Apply(db, op, maxRetries).queue
    ensures QueueRowMoves(db, op, maxRetries, id, db.queue[id], Apply(db, op, maxRetries).queue[id])
  {
  }

  lemma BulkTable(db: Db, op: Op, maxRetries: int, id: JobId)
    requires id in db.queue && id < db.nextId && !OnOneJob(op)
    ensures id in Apply(db, op, maxRetries).queue
    ensures QueueRowMoves(db, op, maxRetries, id, db.queue[id], Apply(db, op, maxRetries).queue[id])
  {
  }

  lemma RegistryTable(db: Db, op: Op, maxRetries: int, u: UrlId)
    requires u in db.urls
    ensures u in Apply(db, op, maxRetries).urls
    ensures UrlRowMoves(db, op, maxRetries, u, db.urls[u], Apply(db, op, maxRetries).urls[u])
  {
  }

  // Rows are created by scheduling alone, one at most, and never in the registry.
  lemma NewRows(db: Db, op: Op, maxRetries: int)
    ensures var db' := Apply(db, op, maxRetries);
      && db'.urls.Keys == db.urls.Keys && db.queue.Keys <= db'.queue.Keys
      && (op.Schedule? && op.conflict.None? && op.u in db.urls ==>
            && db'.queue.Keys == db.queue.Keys + {db.nextId} && db'.nextId == db.nextId + 1
            && db'.queue[db.nextId] == QueueRow(db.urls[op.u].url, "fbref.com", "player_info", Pending, 0,
                                                None, None, None, Some(op.u)))
      && (!(op.Schedule? && op.conflict.None? && op.u in db.urls) ==> db'.queue.Keys == db.queue.Keys)
      && (op.Schedule? && op.conflict.Some? && op.conflict.value in db.queue && op.u in db.urls ==>
            db'.nextId == db.nextId + 1)
      && (!op.Schedule? ==> db'.nextId == db.nextId)
  {
  }

  // A failure is skipped for a missing job and for a job of another type, rejected for a link to a
  // registry row that does not exist, and recorded otherwise.
  lemma OutcomeTable(db: Db, id: JobId)
    ensures FailureOutcome(db, id).Skipped? <==> id !in db.queue || db.queue[id].jobType != "player_info"
    ensures FailureOutcome(db, id).Rejected? <==>
      && id in db.queue && db.queue[id].jobType == "player_info"
      && db.queue[id].fkUrl.Some? && db.queue[id].fkUrl.value !in db.urls
  {
  }

  // The bulk recoveries, for any job type: what they count is what they change.
  lemma StaleRowsCounted(db: Db, jobType: string)
    ensures HitCount(db, InFlight(jobType)) ==
            |set id | id in db.queue && db.queue[id].jobType == jobType && db.queue[id].status == InProgress|
    ensures forall id :: id in db.queue ==>
      var q := db.queue[id];
      RecoverAllStale(db, jobType).queue[id] ==
        if q.jobType == jobType && q.status == InProgress then q.(status := Pending, lockedAt := None) else q
  {
    assert (set id | id in db.queue && InFlight(jobType)(db.queue[id])) ==
           (set id | id in db.queue && db.queue[id].jobType == jobType && db.queue[id].status == InProgress);
  }

  lemma FailedRowsCounted(db: Db, jobType: string)
    ensures HitCount(db, TerminallyFailed(jobType)) ==
            |set id | id in db.queue && db.queue[id].jobType == jobType && db.queue[id].status == Failed|
  {
    assert (set id | id in db.queue && TerminallyFailed(jobType)(db.queue[id])) ==
           (set id | id in db.queue && db.queue[id].jobType == jobType && db.queue[id].status == Failed);
  }

  // Afterwards no row of the type is IN_PROGRESS, none that was has lost anything but its lock, and a
  // second recovery finds nothing.
  lemma NothingInProgressAfterRecovery(db: Db, jobType: string)
    ensures var db' := RecoverAllStale(db, jobType);
      && db'.queue.Keys == db.queue.Keys && db'.urls == db.urls
      && (forall id :: id in db'.queue && db'.queue[id].jobType == jobType ==> db'.queue[id].status != InProgress)
      && (forall id :: id in db.queue && db.queue[id].jobType == jobType && db.queue[id].status == InProgress ==>
            db'.queue[id] == db.queue[id].(status := Pending, lockedAt := None))
      && (forall id :: id in db.queue && !(db.queue[id].jobType == jobType && db.queue[id].status == InProgress) ==>
            db'.queue[id] == db.queue[id])
      && HitCount(db', InFlight(jobType)) == 0
  {
    StaleRowsCounted(db, jobType);
    var db' := RecoverAllStale(db, jobType);
    NoHits(db', InFlight(jobType));
  }
}
