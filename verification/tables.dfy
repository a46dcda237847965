/**
 The two tables that the scrape-queue protocol keeps consistent: the work queue
 (`scrape_queue`) and the URL registry (`tbl_player_urls`), and the facts about
 their keys that the rest of the model relies on.
 */
module Tables {

  datatype Option<+T> = None | Some(value: T)

  type JobId = int
  type UrlId = int

  // Seconds on the database clock.
  type Time = int

  const PLAYER_INFO := "player_info"
  const PROFILE := "profile"
  const SECS_PER_HOUR := 3600

  datatype Status = Pending | InProgress | Done | Failed

  datatype QueueRow = QueueRow(
    url: string,
    domain: string,
    jobType: string,
    status: Status,
    retryCount: int,
    errorMessage: Option<string>,
    lockedAt: Option<Time>,
    completedAt: Option<Time>,
    fkUrl: Option<UrlId>)

  datatype UrlStatus = Unscraped | Active | Stale

  datatype UrlRow = UrlRow(
    url: string,
    urlType: string,
    status: UrlStatus,
    cadenceHours: int,
    priority: int,
    nextScrapeAt: Time,
    retryCount: int,
    lastError: Option<string>,
    lastScrapeStatus: Option<string>,
    lastScrapedAt: Option<Time>)

  // `nextId` is the next value of the queue's id sequence.
  datatype Db = Db(queue: map<JobId, QueueRow>, urls: map<UrlId, UrlRow>, nextId: JobId)

  predicate IsPlayerJob(db: Db, id: JobId) {
    id in db.queue && db.queue[id].jobType == PLAYER_INFO
  }

  // Key constraints of the two tables and the link between them.
  ghost predicate WellKeyed(db: Db) {
    && (forall id :: id in db.queue ==> id < db.nextId)
    && (forall u, v :: u in db.urls && v in db.urls && db.urls[u].url == db.urls[v].url ==> u == v)
    && (forall i, j :: i in db.queue && j in db.queue && SameKey(db.queue[i], db.queue[j]) ==> i == j)
    && (forall id :: IsPlayerJob(db, id) ==> Linked(db, db.queue[id]))
  }

  // The unique key of the queue: url and job type.
  predicate SameKey(p: QueueRow, q: QueueRow) {
    p.url == q.url && p.jobType == q.jobType
  }

  predicate Linked(db: Db, q: QueueRow) {
    q.fkUrl.Some? && q.fkUrl.value in db.urls && db.urls[q.fkUrl.value].url == q.url
  }

  // The registry row that a linked job was scheduled from.
  function UrlOf(db: Db, q: QueueRow): UrlRow
    requires Linked(db, q)
  {
    db.urls[q.fkUrl.value]
  }

  lemma KeyOf<K, V>(m: map<K, V>, v: V) returns (k: K)
    requires v in m.Values
    ensures k in m && m[k] == v
  {
    k :| k in m && m[k] == v;
  }

  lemma OneJobPerUrl(db: Db, i: JobId, j: JobId)
    requires WellKeyed(db)
    requires IsPlayerJob(db, i) && IsPlayerJob(db, j)
    requires db.queue[i].fkUrl == db.queue[j].fkUrl
    ensures i == j
  {
    assert Linked(db, db.queue[i]) && Linked(db, db.queue[j]);
  }
}
