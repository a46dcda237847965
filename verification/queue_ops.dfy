/**
 What each repository operation and each committed transaction does to the two
 tables, as functions from table state to table state.
 */
module QueueOps {
  import opened Tables

  // core/application/retry_policy.py
  predicate IsTerminal(currentRetryCount: int, maxRetries: int) {
    currentRetryCount + 1 >= maxRetries
  }

  // ---------- Effects on one row ----------

  function Claimed(q: QueueRow, now: Time): QueueRow {
    q.(status := InProgress, lockedAt := Some(now))
  }

  function Released(q: QueueRow): QueueRow {
    q.(status := Pending, lockedAt := None)
  }

  function Completed(q: QueueRow, now: Time): QueueRow {
    q.(status := Done, completedAt := Some(now), lockedAt := None)
  }

  // One more failure against the retry ceiling.
  function FailedOnce(q: QueueRow, error: string, maxRetries: int, now: Time): QueueRow {
    var r := q.(retryCount := q.retryCount + 1, errorMessage := Some(error), lockedAt := None);
    if IsTerminal(q.retryCount, maxRetries)
    then r.(status := Failed, completedAt := Some(now))
    else r.(status := Pending)
  }

  // The generic repository's failure policy, which never terminates a job.
  function Requeued(q: QueueRow, error: string): QueueRow {
    q.(retryCount := q.retryCount + 1, errorMessage := Some(error), lockedAt := None, status := Pending)
  }

  function Revived(q: QueueRow): QueueRow {
    q.(status := Pending, retryCount := 0, errorMessage := None, completedAt := None, lockedAt := None)
  }

  function BulkRevived(q: QueueRow): QueueRow {
    q.(status := Pending, retryCount := 0, errorMessage := None, completedAt := None)
  }

  function Reactivated(q: QueueRow, u: UrlId): QueueRow {
    q.(status := Pending, completedAt := None, lockedAt := None, errorMessage := None,
       retryCount := 0, fkUrl := Some(u))
  }

  function FreshRow(url: string, u: UrlId): QueueRow {
    QueueRow(url, "fbref.com", PLAYER_INFO, Pending, 0, None, None, None, Some(u))
  }

  function Scraped(u: UrlRow, now: Time): UrlRow {
    u.(status := Active, lastScrapedAt := Some(now), lastScrapeStatus := Some("SUCCESS"),
       nextScrapeAt := now + u.cadenceHours * SECS_PER_HOUR, retryCount := 0, lastError := None)
  }

  // The registry half of a recorded failure: counters follow the queue row.
  function UrlFailed(u: UrlRow, newRetry: int, error: string, terminal: bool): UrlRow {
    u.(status := if terminal then Stale else u.status,
       retryCount := newRetry, lastError := Some(error), lastScrapeStatus := Some("FAILURE"))
  }

  function UrlRevived(u: UrlRow, now: Time): UrlRow {
    u.(status := Unscraped, retryCount := 0, lastError := None, nextScrapeAt := now)
  }

  // ---------- Effects on the tables ----------

  predicate Claimable(db: Db, id: JobId, jobType: string) {
    id in db.queue && db.queue[id].status == Pending && db.queue[id].jobType == jobType
  }

  function Claim(db: Db, id: JobId, jobType: string, now: Time): Db {
    if Claimable(db, id, jobType) then db.(queue := db.queue[id := Claimed(db.queue[id], now)]) else db
  }

  predicate Releasable(db: Db, id: JobId, jobType: string) {
    id in db.queue && db.queue[id].status == InProgress && db.queue[id].jobType == jobType
  }

  function Release(db: Db, id: JobId, jobType: string): Db {
    if Releasable(db, id, jobType) then db.(queue := db.queue[id := Released(db.queue[id])]) else db
  }

  // Any of the single-row operations that load a row by id and rewrite it.
  function SetRow(db: Db, id: JobId, q: QueueRow): Db {
    db.(queue := db.queue[id := q])
  }

  function MarkScraped(db: Db, u: UrlId, now: Time): Db {
    if u in db.urls then db.(urls := db.urls[u := Scraped(db.urls[u], now)]) else db
  }

  // The success transaction of a worker: the job is DONE and its URL is scraped, in one commit.
  function Succeed(db: Db, id: JobId, now: Time): Db
    requires id in db.queue
  {
    var q := db.queue[id];
    var db' := SetRow(db, id, Completed(q, now));
    if q.fkUrl.Some? then MarkScraped(db', q.fkUrl.value, now) else db'
  }

  datatype Outcome = Applied | Skipped | Rejected

  function FailureOutcome(db: Db, id: JobId): Outcome {
    if !IsPlayerJob(db, id) then Skipped
    else if db.queue[id].fkUrl.Some? && db.queue[id].fkUrl.value !in db.urls then Rejected
    else Applied
  }

  function RecordFailure(db: Db, id: JobId, error: string, maxRetries: int, now: Time): Db {
    if FailureOutcome(db, id) != Applied then db
    else
      var q := db.queue[id];
      var db' := SetRow(db, id, FailedOnce(q, error, maxRetries, now));
      if q.fkUrl.Some? then
        var u := q.fkUrl.value;
        var terminal := IsTerminal(q.retryCount, maxRetries);
        db'.(urls := db'.urls[u := UrlFailed(db'.urls[u], q.retryCount + 1, error, terminal)])
      else db'
  }

  predicate Recoverable(db: Db, id: JobId) {
    && IsPlayerJob(db, id)
    && db.queue[id].status == Failed
    && db.queue[id].fkUrl.Some?
    && db.queue[id].fkUrl.value in db.urls
    && db.urls[db.queue[id].fkUrl.value].status == Stale
  }

  function RecoverJob(db: Db, id: JobId, now: Time): Db {
    if !Recoverable(db, id) then db
    else
      var u := db.queue[id].fkUrl.value;
      SetRow(db, id, Revived(db.queue[id])).(urls := db.urls[u := UrlRevived(db.urls[u], now)])
  }

  // The rows that a bulk UPDATE ... WHERE touches, all rewritten by `f`.
  function UpdateWhere(db: Db, hit: QueueRow -> bool, f: QueueRow -> QueueRow): (r: Db)
    ensures r.queue.Keys == db.queue.Keys && r.urls == db.urls && r.nextId == db.nextId
    ensures forall id :: id in db.queue ==>
      r.queue[id] == if hit(db.queue[id]) then f(db.queue[id]) else db.queue[id]
  {
    db.(queue := map id | id in db.queue :: if hit(db.queue[id]) then f(db.queue[id]) else db.queue[id])
  }

  function HitCount(db: Db, hit: QueueRow -> bool): nat {
    |set id | id in db.queue && hit(db.queue[id])|
  }

  function InFlight(jobType: string): QueueRow -> bool {
    (q: QueueRow) => q.jobType == jobType && q.status == InProgress
  }

  function RecoverAllStale(db: Db, jobType: string): Db {
    UpdateWhere(db, InFlight(jobType), Released)
  }

  function LockedBefore(jobType: string, cutoff: Time): QueueRow -> bool {
    (q: QueueRow) => q.jobType == jobType && q.status == InProgress && q.lockedAt.Some? && q.lockedAt.value < cutoff
  }

  function DomainLockedBefore(domain: string, cutoff: Time): QueueRow -> bool {
    (q: QueueRow) => q.domain == domain && q.status == InProgress && q.lockedAt.Some? && q.lockedAt.value < cutoff
  }

  function TerminallyFailed(jobType: string): QueueRow -> bool {
    (q: QueueRow) => q.jobType == jobType && q.status == Failed
  }

  function RecoverFailed(db: Db, jobType: string): Db {
    UpdateWhere(db, TerminallyFailed(jobType), BulkRevived)
  }

  // ---------- Scheduling one registry row ----------

  // No queue row, or a DONE one, is joined to the registry row.
  predicate Schedulable(db: Db, u: UrlId) {
    && u in db.urls
    && db.urls[u].urlType == PROFILE
    && db.urls[u].status != Stale
    && (forall id :: id in db.queue && IsPlayerJob(db, id) && db.queue[id].fkUrl == Some(u) ==>
          db.queue[id].status == Done)
  }

  predicate Eligible(db: Db, u: UrlId, now: Time) {
    Schedulable(db, u) && db.urls[u].nextScrapeAt <= now
  }

  predicate Conflicts(db: Db, id: JobId, url: string) {
    IsPlayerJob(db, id) && db.queue[id].url == url
  }

  // INSERT ... ON CONFLICT (url, job_type) DO UPDATE ... WHERE status = 'DONE' for one
  // selected registry row; `conflict` is the id of the queue row already holding the URL.
  function Enqueue(db: Db, u: UrlId, conflict: Option<JobId>): Db
    requires u in db.urls
    requires conflict.Some? ==> conflict.value in db.queue
  {
    match conflict
    case None =>
      db.(queue := db.queue[db.nextId := FreshRow(db.urls[u].url, u)], nextId := db.nextId + 1)
    case Some(id) =>
      if db.queue[id].status == Done
      then SetRow(db, id, Reactivated(db.queue[id], u)).(nextId := db.nextId + 1)
      else db.(nextId := db.nextId + 1)
  }

  ghost predicate IsConflict(db: Db, url: string, conflict: Option<JobId>) {
    match conflict
    case None => forall id :: !Conflicts(db, id, url)
    case Some(id) => Conflicts(db, id, url)
  }
}
