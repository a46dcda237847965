/**
 What holds of the two tables over every run of repository operations and
 committed transactions.
 */
module Lifecycle {
  import opened Tables
  import opened QueueOps

  datatype Op =
    | ClaimJob(id: JobId, now: Time)
    | MarkDone(id: JobId, now: Time)
    | MarkFailed(id: JobId, error: string, now: Time)
    | MarkFailedForever(id: JobId, error: string)
    | MarkInProgress(id: JobId, now: Time)
    | ReleaseToPending(id: JobId)
    | RecoverStaleRows
    | RecoverLockedBefore(cutoff: Time)
    | RecoverDomain(domain: string, cutoff: Time)
    | RecoverFailedRows
    | Success(id: JobId, now: Time)
    | RecordJobFailure(id: JobId, error: string, now: Time)
    | RecoverFailedJob(id: JobId, now: Time)
    | Schedule(u: UrlId, conflict: Option<JobId>)

  function Apply(db: Db, op: Op, maxRetries: int): Db {
    match op
    case ClaimJob(id, now) => Claim(db, id, PLAYER_INFO, now)
    case MarkDone(id, now) => if id in db.queue then SetRow(db, id, Completed(db.queue[id], now)) else db
    case MarkFailed(id, error, now) =>
      if id in db.queue then SetRow(db, id, FailedOnce(db.queue[id], error, maxRetries, now)) else db
    case MarkFailedForever(id, error) => if id in db.queue then SetRow(db, id, Requeued(db.queue[id], error)) else db
    case MarkInProgress(id, now) => if id in db.queue then SetRow(db, id, Claimed(db.queue[id], now)) else db
    case ReleaseToPending(id) => Release(db, id, PLAYER_INFO)
    case RecoverStaleRows => RecoverAllStale(db, PLAYER_INFO)
    case RecoverLockedBefore(cutoff) => UpdateWhere(db, LockedBefore(PLAYER_INFO, cutoff), Released)
    case RecoverDomain(domain, cutoff) => UpdateWhere(db, DomainLockedBefore(domain, cutoff), Released)
    case RecoverFailedRows => RecoverFailed(db, PLAYER_INFO)
    case Success(id, now) => if id in db.queue then Succeed(db, id, now) else db
    case RecordJobFailure(id, error, now) => RecordFailure(db, id, error, maxRetries, now)
    case RecoverFailedJob(id, now) => RecoverJob(db, id, now)
    case Schedule(u, conflict) =>
      if u in db.urls && (conflict.Some? ==> conflict.value in db.queue) then Enqueue(db, u, conflict) else db
  }

  function Run(db: Db, ops: seq<Op>, maxRetries: int): Db
    decreases |ops|
  {
    if ops == [] then db else Run(Apply(db, ops[0], maxRetries), ops[1..], maxRetries)
  }

  // ---------- Timestamps follow the status ----------

  predicate Finished(s: Status) {
    s == Done || s == Failed
  }

  predicate StampsOk(q: QueueRow) {
    (q.lockedAt.Some? <==> q.status == InProgress) && (q.completedAt.Some? <==> Finished(q.status))
  }

  ghost predicate AllStampsOk(db: Db) {
    forall id :: id in db.queue ==> StampsOk(db.queue[id])
  }

  // The operations that put a job back into circulation without looking at its status
  // are only safe on a row that is not finished, or that stays finished.
  predicate Disciplined(db: Db, op: Op, maxRetries: int) {
    match op
    case MarkFailed(id, _, _) =>
      id in db.queue && Finished(db.queue[id].status) ==> IsTerminal(db.queue[id].retryCount, maxRetries)
    case RecordJobFailure(id, _, _) =>
      FailureOutcome(db, id) == Applied && Finished(db.queue[id].status) ==>
        IsTerminal(db.queue[id].retryCount, maxRetries)
    case MarkFailedForever(id, _) => id in db.queue ==> !Finished(db.queue[id].status)
    case MarkInProgress(id, _) => id in db.queue ==> !Finished(db.queue[id].status)
    case _ => true
  }

  // locked_at is set exactly on IN_PROGRESS rows and completed_at exactly on DONE and FAILED
  // rows, after an operation on such a table, if and only if the operation was disciplined.
  lemma StampsKept(db: Db, op: Op, maxRetries: int)
    requires AllStampsOk(db)
    ensures AllStampsOk(Apply(db, op, maxRetries)) <==> Disciplined(db, op, maxRetries)
  {
    var db' := Apply(db, op, maxRetries);
    if Disciplined(db, op, maxRetries) {
      forall id | id in db'.queue ensures StampsOk(db'.queue[id]) {
        StampsOfRow(db, op, maxRetries, id);
      }
    } else {
      UndisciplinedRow(db, op, maxRetries);
    }
  }

  lemma StampsOfRow(db: Db, op: Op, maxRetries: int, id: JobId)
    requires Disciplined(db, op, maxRetries) && id in Apply(db, op, maxRetries).queue
    requires id in db.queue ==> StampsOk(db.queue[id])
    ensures StampsOk(Apply(db, op, maxRetries).queue[id])
  {
    if op.RecoverStaleRows? || op.RecoverLockedBefore? || op.RecoverDomain? || op.RecoverFailedRows? || op.Schedule? {
      StampsOfTouchedRow(db, op, maxRetries, id);
    } else if id != op.id {
      OtherRow(db, op, maxRetries, id);
    } else {
      StampsOfOwnRow(db, op, maxRetries);
    }
  }

  predicate OnOneJob(op: Op) {
    || op.ClaimJob? || op.MarkDone? || op.MarkFailed? || op.MarkFailedForever? || op.MarkInProgress?
    || op.ReleaseToPending? || op.Success? || op.RecordJobFailure? || op.RecoverFailedJob?
  }

  lemma OtherRow(db: Db, op: Op, maxRetries: int, id: JobId)
    requires OnOneJob(op) && id != op.id && id in Apply(db, op, maxRetries).queue
    ensures id in db.queue && Apply(db, op, maxRetries).queue[id] == db.queue[id]
  {
  }

  lemma StampsOfOwnRow(db: Db, op: Op, maxRetries: int)
    requires OnOneJob(op) && Disciplined(db, op, maxRetries) && op.id in Apply(db, op, maxRetries).queue
    requires op.id in db.queue ==> StampsOk(db.queue[op.id])
    ensures StampsOk(Apply(db, op, maxRetries).queue[op.id])
  {
  }

  lemma StampsOfTouchedRow(db: Db, op: Op, maxRetries: int, id: JobId)
    requires !OnOneJob(op) && id in Apply(db, op, maxRetries).queue
    requires id in db.queue ==> StampsOk(db.queue[id])
    ensures StampsOk(Apply(db, op, maxRetries).queue[id])
  {
  }

  lemma UndisciplinedRow(db: Db, op: Op, maxRetries: int)
    requires !Disciplined(db, op, maxRetries) && (op.id in db.queue ==> StampsOk(db.queue[op.id]))
    ensures var db' := Apply(db, op, maxRetries); op.id in db'.queue && !StampsOk(db'.queue[op.id])
  {
  }

  // A DONE job that is failed below the ceiling goes back to the queue with its completion time.
  lemma FailingADoneJobBreaksStamps() returns (db: Db)
    ensures AllStampsOk(db) && !AllStampsOk(Apply(db, MarkFailed(1, "error", 9), 5))
  {
    var q := FreshRow("u", 1).(status := Done, completedAt := Some(7));
    db := Db(map[1 := q], map[], 2);
    assert !StampsOk(Apply(db, MarkFailed(1, "error", 9), 5).queue[1]);
  }

  ghost predicate AllDisciplined(db: Db, ops: seq<Op>, maxRetries: int)
    decreases |ops|
  {
    ops != [] ==>
      Disciplined(db, ops[0], maxRetries) && AllDisciplined(Apply(db, ops[0], maxRetries), ops[1..], maxRetries)
  }

  lemma {:induction false} StampsAlways(db: Db, ops: seq<Op>, maxRetries: int)
    requires AllStampsOk(db) && AllDisciplined(db, ops, maxRetries)
    ensures AllStampsOk(Run(db, ops, maxRetries))
    decreases |ops|
  {
    if ops != [] {
      StampsKept(db, ops[0], maxRetries);
      StampsAlways(Apply(db, ops[0], maxRetries), ops[1..], maxRetries);
    }
  }

  // ---------- The retry budget ----------

  // Operations that may happen between a job's activation and its end: everything but completing
  // job `id`, reviving it once it has ended, marking it again after its end, and the generic
  // failure policy, which has no ceiling.
  predicate WithinBudget(db: Db, id: JobId, op: Op) {
    match op
    case MarkDone(i, _) => i != id
    case Success(i, _) => i != id
    case MarkFailedForever(i, _) => i != id
    case MarkInProgress(i, _) => i == id ==> id in db.queue && !Finished(db.queue[id].status)
    case MarkFailed(i, _, _) => i == id ==> id in db.queue && !Finished(db.queue[id].status)
    case RecordJobFailure(i, _, _) => i == id ==> id in db.queue && !Finished(db.queue[id].status)
    case RecoverFailedJob(i, _) => i == id ==> !Recoverable(db, id)
    case RecoverFailedRows => id in db.queue && !TerminallyFailed(PLAYER_INFO)(db.queue[id])
    case _ => true
  }

  ghost predicate AllWithinBudget(db: Db, id: JobId, ops: seq<Op>, maxRetries: int)
    decreases |ops|
  {
    ops != [] ==>
      WithinBudget(db, id, ops[0]) && AllWithinBudget(Apply(db, ops[0], maxRetries), id, ops[1..], maxRetries)
  }

  // A failure of job `id` is recorded.
  predicate Fails(db: Db, id: JobId, op: Op) {
    || (op.MarkFailed? && op.id == id && id in db.queue)
    || (op.RecordJobFailure? && op.id == id && FailureOutcome(db, id) == Applied)
  }

  function FailureCount(db: Db, id: JobId, ops: seq<Op>, maxRetries: int): nat
    decreases |ops|
  {
    if ops == [] then 0
    else
      var db' := Apply(db, ops[0], maxRetries);
      (if Fails(db, id, ops[0]) then 1 else 0) + FailureCount(db', id, ops[1..], maxRetries)
  }

  ghost predicate BudgetRow(q: QueueRow, spent: int, maxRetries: int) {
    q.retryCount == spent && q.status != Done && (q.status == Failed <==> spent >= maxRetries)
  }

  lemma BudgetStep(db: Db, id: JobId, op: Op, spent: nat, maxRetries: int)
    requires id in db.queue && id < db.nextId
    requires BudgetRow(db.queue[id], spent, maxRetries) && spent <= maxRetries
    requires WithinBudget(db, id, op)
    ensures var db' := Apply(db, op, maxRetries); var spent' := spent + if Fails(db, id, op) then 1 else 0;
      id in db'.queue && id < db'.nextId && BudgetRow(db'.queue[id], spent', maxRetries) && spent' <= maxRetries
  {
  }

  // Claims, releases and recoveries spend no budget, and a job that starts with retry_count 0 is
  // FAILED exactly when it has failed `maxRetries` times; it cannot fail more often.
  lemma {:induction false} BudgetAlways(db: Db, id: JobId, ops: seq<Op>, spent: nat, maxRetries: int)
    requires id in db.queue && id < db.nextId
    requires BudgetRow(db.queue[id], spent, maxRetries) && spent <= maxRetries
    requires AllWithinBudget(db, id, ops, maxRetries)
    ensures var db' := Run(db, ops, maxRetries); var spent' := spent + FailureCount(db, id, ops, maxRetries);
      id in db'.queue && BudgetRow(db'.queue[id], spent', maxRetries) && spent' <= maxRetries
    decreases |ops|
  {
    if ops != [] {
      BudgetStep(db, id, ops[0], spent, maxRetries);
      var spent' := spent + if Fails(db, id, ops[0]) then 1 else 0;
      BudgetAlways(Apply(db, ops[0], maxRetries), id, ops[1..], spent', maxRetries);
    }
  }

  lemma FailedOnExactlyTheLastFailure(db: Db, id: JobId, ops: seq<Op>, maxRetries: int)
    requires maxRetries >= 1 && id in db.queue && id < db.nextId
    requires db.queue[id].retryCount == 0 && !Finished(db.queue[id].status)
    requires AllWithinBudget(db, id, ops, maxRetries)
    ensures var db' := Run(db, ops, maxRetries); var failures := FailureCount(db, id, ops, maxRetries);
      && id in db'.queue
      && db'.queue[id].retryCount == failures <= maxRetries
      && (db'.queue[id].status == Failed <==> failures == maxRetries)
  {
    BudgetAlways(db, id, ops, 0, maxRetries);
  }

  // A JobLoop row: marked, failed, marked and failed again, it is FAILED at a ceiling of two.
  lemma AJobLoopRowFails(db: Db, id: JobId, error: string, now: Time)
    requires id in db.queue && id < db.nextId && db.queue[id].jobType != PLAYER_INFO
    requires db.queue[id].retryCount == 0 && db.queue[id].status == Pending
    ensures var mark, fail := MarkInProgress(id, now), MarkFailed(id, error, now); var ops := [mark, fail, mark, fail];
      && AllWithinBudget(db, id, ops, 2) && FailureCount(db, id, ops, 2) == 2
      && id in Run(db, ops, 2).queue && Run(db, ops, 2).queue[id].status == Failed
  {
    var mark, fail := MarkInProgress(id, now), MarkFailed(id, error, now);
    var ops := [mark, fail, mark, fail];
    var db1 := Apply(db, mark, 2);
    var db2 := Apply(db1, fail, 2);
    var db3 := Apply(db2, mark, 2);
    BudgetCons(db3, id, fail, [], 2);
    BudgetCons(db2, id, mark, [fail], 2);
    BudgetCons(db1, id, fail, [mark, fail], 2);
    BudgetCons(db, id, mark, [fail, mark, fail], 2);
    assert [fail] + [] == [fail] && [mark] + [fail] == [mark, fail] && [fail] + [mark, fail] == [fail, mark, fail];
    assert [mark] + [fail, mark, fail] == ops;
    FailedOnExactlyTheLastFailure(db, id, ops, 2);
  }

  lemma BudgetCons(db: Db, id: JobId, op: Op, ops: seq<Op>, maxRetries: int)
    ensures var db' := Apply(db, op, maxRetries);
      && (AllWithinBudget(db, id, [op] + ops, maxRetries) <==>
            WithinBudget(db, id, op) && AllWithinBudget(db', id, ops, maxRetries))
      && FailureCount(db, id, [op] + ops, maxRetries) ==
           (if Fails(db, id, op) then 1 else 0) + FailureCount(db', id, ops, maxRetries)
  {
    assert ([op] + ops)[1..] == ops;
  }

  // ---------- The queue row and its registry row agree ----------

  predicate PairOk(q: QueueRow, u: UrlRow, maxRetries: int) {
    && (q.status == Failed <==> u.status == Stale)
    && (q.status != Done ==> q.retryCount == u.retryCount)
    && (q.status == Done ==> u.status == Active && u.retryCount == 0)
    && (q.status == Failed ==> q.retryCount >= maxRetries)
  }

  ghost predicate Unqueued(db: Db, u: UrlId) {
    u in db.urls && forall id :: IsPlayerJob(db, id) ==> db.queue[id].fkUrl != Some(u)
  }

  ghost predicate PairInv(db: Db, maxRetries: int) {
    && WellKeyed(db)
    && (forall id :: IsPlayerJob(db, id) ==> PairOk(db.queue[id], UrlOf(db, db.queue[id]), maxRetries))
    && (forall u :: Unqueued(db, u) ==> db.urls[u].retryCount == 0)
  }

  // The transactions that the running system commits.
  ghost predicate Transaction(db: Db, op: Op) {
    match op
    case MarkDone(_, _) => false
    case MarkFailed(_, _, _) => false
    case MarkFailedForever(_, _) => false
    case MarkInProgress(_, _) => false
    case RecoverFailedRows => false
    case Success(id, _) => IsPlayerJob(db, id)
    case Schedule(u, conflict) => Schedulable(db, u) && IsConflict(db, db.urls[u].url, conflict)
    case _ => true
  }

  // An operation that leaves keys and registry alone and rewrites each row `f(q)` keeps the pair
  // invariant when it keeps each pair.
  lemma RewriteKeepsPair(db: Db, db': Db, maxRetries: int)
    requires PairInv(db, maxRetries)
    requires db'.queue.Keys == db.queue.Keys && db'.urls == db.urls && db'.nextId == db.nextId
    requires forall id :: id in db.queue ==>
      SameKey(db'.queue[id], db.queue[id]) && db'.queue[id].fkUrl == db.queue[id].fkUrl
    requires forall id :: IsPlayerJob(db, id) && PairOk(db.queue[id], UrlOf(db, db.queue[id]), maxRetries) ==>
      PairOk(db'.queue[id], UrlOf(db, db.queue[id]), maxRetries)
    ensures PairInv(db', maxRetries)
  {
    assert forall id :: IsPlayerJob(db', id) ==> IsPlayerJob(db, id);
    assert forall id :: IsPlayerJob(db, id) ==> IsPlayerJob(db', id);
    assert forall u :: Unqueued(db', u) ==> Unqueued(db, u);
  }

  // A transaction that rewrites one job and the registry row it is linked to.
  lemma PairRewriteKeepsPair(db: Db, db': Db, id: JobId, maxRetries: int)
    requires PairInv(db, maxRetries) && IsPlayerJob(db, id)
    requires db'.queue.Keys == db.queue.Keys && db'.urls.Keys == db.urls.Keys && db'.nextId == db.nextId
    requires forall j :: j in db.queue && j != id ==> db'.queue[j] == db.queue[j]
    requires SameKey(db'.queue[id], db.queue[id]) && db'.queue[id].fkUrl == db.queue[id].fkUrl
    requires Linked(db, db.queue[id])
    requires forall u :: u in db.urls && u != db.queue[id].fkUrl.value ==> db'.urls[u] == db.urls[u]
    requires db'.urls[db.queue[id].fkUrl.value].url == UrlOf(db, db.queue[id]).url
    requires PairOk(db'.queue[id], db'.urls[db.queue[id].fkUrl.value], maxRetries)
    ensures PairInv(db', maxRetries)
  {
    forall j | IsPlayerJob(db', j)
      ensures Linked(db', db'.queue[j]) && PairOk(db'.queue[j], UrlOf(db', db'.queue[j]), maxRetries)
    {
      assert IsPlayerJob(db, j) && Linked(db, db.queue[j]);
      if j != id && db.queue[j].fkUrl == db.queue[id].fkUrl {
        OneJobPerUrl(db, j, id);
      }
    }
    forall u | Unqueued(db', u) ensures db'.urls[u].retryCount == 0 {
      assert IsPlayerJob(db', id);
      assert forall j :: IsPlayerJob(db, j) ==> IsPlayerJob(db', j);
      assert Unqueued(db, u);
    }
  }

  // Scheduling finds either no job for the URL, and inserts one, or a DONE job, which it
  // reactivates: the conflict target is the job that the outer join saw.
  lemma ScheduleTarget(db: Db, u: UrlId, conflict: Option<JobId>)
    requires WellKeyed(db) && Schedulable(db, u) && IsConflict(db, db.urls[u].url, conflict)
    ensures conflict.None? <==> Unqueued(db, u)
    ensures conflict.Some? ==> db.queue[conflict.value].fkUrl == Some(u) && db.queue[conflict.value].status == Done
  {
    if conflict.Some? {
      assert Conflicts(db, conflict.value, db.urls[u].url);
      assert Linked(db, db.queue[conflict.value]);
      assert IsPlayerJob(db, conflict.value) && db.queue[conflict.value].fkUrl.value == u;
    } else {
      forall id | IsPlayerJob(db, id) ensures db.queue[id].fkUrl != Some(u) {
        assert Linked(db, db.queue[id]);
        assert !Conflicts(db, id, db.urls[u].url);
      }
    }
  }

  lemma InsertKeepsPair(db: Db, u: UrlId, maxRetries: int)
    requires PairInv(db, maxRetries) && Schedulable(db, u) && maxRetries >= 1
    requires IsConflict(db, db.urls[u].url, None)
    ensures PairInv(Enqueue(db, u, None), maxRetries)
  {
    var db' := Enqueue(db, u, None);
    ScheduleTarget(db, u, None);
    forall k | k in db.queue ensures !SameKey(db.queue[k], FreshRow(db.urls[u].url, u)) {
      assert !Conflicts(db, k, db.urls[u].url);
    }
    forall id | IsPlayerJob(db', id)
      ensures Linked(db', db'.queue[id]) && PairOk(db'.queue[id], UrlOf(db', db'.queue[id]), maxRetries)
    {
      if id != db.nextId {
        assert IsPlayerJob(db, id);
      }
    }
    forall v | Unqueued(db', v) ensures db'.urls[v].retryCount == 0 {
      assert forall id :: IsPlayerJob(db, id) ==> IsPlayerJob(db', id) && db'.queue[id] == db.queue[id];
      assert Unqueued(db, v);
    }
  }

  lemma ReactivateKeepsPair(db: Db, u: UrlId, id: JobId, maxRetries: int)
    requires PairInv(db, maxRetries) && Schedulable(db, u) && maxRetries >= 1
    requires IsConflict(db, db.urls[u].url, Some(id))
    ensures PairInv(Enqueue(db, u, Some(id)), maxRetries)
  {
    var db' := Enqueue(db, u, Some(id));
    var mid := db'.(nextId := db.nextId);
    ScheduleTarget(db, u, Some(id));
    assert Linked(db, db.queue[id]) && PairOk(db.queue[id], UrlOf(db, db.queue[id]), maxRetries);
    PairRewriteKeepsPair(db, mid, id, maxRetries);
    assert forall j :: IsPlayerJob(db', j) <==> IsPlayerJob(mid, j);
    assert forall j :: IsPlayerJob(mid, j) ==> Linked(mid, mid.queue[j]) && Linked(db', mid.queue[j]);
    assert forall v :: Unqueued(db', v) ==> Unqueued(mid, v);
  }

  lemma FailureKeepsPair(db: Db, id: JobId, error: string, maxRetries: int, now: Time)
    requires PairInv(db, maxRetries)
    ensures PairInv(RecordFailure(db, id, error, maxRetries, now), maxRetries)
  {
    if FailureOutcome(db, id) == Applied {
      assert Linked(db, db.queue[id]) && PairOk(db.queue[id], UrlOf(db, db.queue[id]), maxRetries);
      PairRewriteKeepsPair(db, RecordFailure(db, id, error, maxRetries, now), id, maxRetries);
    }
  }

  lemma RecoveryKeepsPair(db: Db, id: JobId, maxRetries: int, now: Time)
    requires PairInv(db, maxRetries) && maxRetries >= 1
    ensures PairInv(RecoverJob(db, id, now), maxRetries)
  {
    if Recoverable(db, id) {
      assert Linked(db, db.queue[id]) && PairOk(db.queue[id], UrlOf(db, db.queue[id]), maxRetries);
      PairRewriteKeepsPair(db, RecoverJob(db, id, now), id, maxRetries);
    }
  }

  lemma SuccessKeepsPair(db: Db, id: JobId, maxRetries: int, now: Time)
    requires PairInv(db, maxRetries) && IsPlayerJob(db, id)
    ensures PairInv(Succeed(db, id, now), maxRetries)
  {
    assert Linked(db, db.queue[id]);
    PairRewriteKeepsPair(db, Succeed(db, id, now), id, maxRetries);
  }

  // Every transaction of the system keeps queue and registry in step.
  lemma PairKept(db: Db, op: Op, maxRetries: int)
    requires PairInv(db, maxRetries) && maxRetries >= 1
    requires Transaction(db, op)
    ensures PairInv(Apply(db, op, maxRetries), maxRetries)
  {
    match op {
      case Schedule(u, conflict) =>
        if conflict.Some? {
          ReactivateKeepsPair(db, u, conflict.value, maxRetries);
        } else {
          InsertKeepsPair(db, u, maxRetries);
        }
      case RecordJobFailure(id, error, now) => FailureKeepsPair(db, id, error, maxRetries, now);
      case RecoverFailedJob(id, now) => RecoveryKeepsPair(db, id, maxRetries, now);
      case Success(id, now) => SuccessKeepsPair(db, id, maxRetries, now);
      case _ => RewriteKeepsPair(db, Apply(db, op, maxRetries), maxRetries);
    }
  }

  ghost predicate AllTransactions(db: Db, ops: seq<Op>, maxRetries: int)
    decreases |ops|
  {
    ops != [] ==>
      Transaction(db, ops[0]) && AllTransactions(Apply(db, ops[0], maxRetries), ops[1..], maxRetries)
  }

  // Over every run of committed transactions: FAILED in the queue iff STALE in the registry, equal
  // retry counts until the job is DONE, and a DONE job's URL is ACTIVE with a clean counter.
  lemma {:induction false} PairAlways(db: Db, ops: seq<Op>, maxRetries: int)
    requires PairInv(db, maxRetries) && maxRetries >= 1
    requires AllTransactions(db, ops, maxRetries)
    ensures PairInv(Run(db, ops, maxRetries), maxRetries)
    decreases |ops|
  {
    if ops != [] {
      PairKept(db, ops[0], maxRetries);
      PairAlways(Apply(db, ops[0], maxRetries), ops[1..], maxRetries);
    }
  }

  // The bulk reset of FAILED jobs rewrites only the queue half of each pair: it is safe exactly
  // when it has nothing to reset.
  lemma BulkRecoverKeepsPairIffNothingFailed(db: Db, maxRetries: int)
    requires PairInv(db, maxRetries)
    ensures PairInv(RecoverFailed(db, PLAYER_INFO), maxRetries) <==> HitCount(db, TerminallyFailed(PLAYER_INFO)) == 0
  {
    var db' := RecoverFailed(db, PLAYER_INFO);
    var hit := TerminallyFailed(PLAYER_INFO);
    NoHits(db, hit);
    if id :| id in db.queue && hit(db.queue[id]) {
      assert IsPlayerJob(db, id) && IsPlayerJob(db', id);
      assert PairOk(db.queue[id], UrlOf(db, db.queue[id]), maxRetries);
      assert !PairOk(db'.queue[id], UrlOf(db', db'.queue[id]), maxRetries);
    } else {
      assert forall id :: id in db.queue ==> !hit(db.queue[id]);
      assert db'.queue == db.queue;
    }
  }

  // One FAILED job with its STALE registry row, and the bulk reset revives the job alone.
  lemma BulkRecoverBreaksAPair() returns (db: Db)
    ensures PairInv(db, 5) && !PairInv(RecoverFailed(db, PLAYER_INFO), 5)
  {
    var q := FreshRow("u", 1).(status := Failed, retryCount := 5, completedAt := Some(7));
    var u := UrlRow("u", PROFILE, Stale, 168, 5, 0, 5, None, None, None);
    db := Db(map[1 := q], map[1 := u], 2);
    assert PairOk(q, u, 5) && UrlOf(db, db.queue[1]) == u;
    BulkRecoverKeepsPairIffNothingFailed(db, 5);
    NoHits(db, TerminallyFailed(PLAYER_INFO));
    assert TerminallyFailed(PLAYER_INFO)(db.queue[1]);
  }

  lemma NoHits(db: Db, hit: QueueRow -> bool)
    ensures HitCount(db, hit) == 0 <==> forall id :: id in db.queue ==> !hit(db.queue[id])
  {
    var hits := set id | id in db.queue && hit(db.queue[id]);
    if id :| id in db.queue && hit(db.queue[id]) {
      assert id in hits;
    } else {
      assert forall id :: id in db.queue ==> !hit(db.queue[id]);
      assert forall id :: id !in hits;
    }
  }
}
