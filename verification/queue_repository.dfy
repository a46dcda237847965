/**
 The repositories over the two tables, statement by statement, each proved
 against the table functions of QueueOps.
 */
module QueueRepository {
  import opened Tables
  import opened QueueOps
  import Pick
  import Transitions

  datatype Recovery = Recovered | NotFound | WrongType | WrongState | NoUrl | UrlMissing | UrlNotStale

  datatype Recording = Recorded | Inconsistent | Fatal

  class QueueStore {
    var queue: map<JobId, QueueRow>
    var urls: map<UrlId, UrlRow>
    var nextId: JobId
    const jobType: string

    constructor (jobType: string)
      ensures Contents() == Db(map[], map[], 1) && this.jobType == jobType
    {
      this.jobType := jobType;
      queue, urls, nextId := map[], map[], 1;
    }

    ghost function Contents(): Db
      reads this
    {
      Db(queue, urls, nextId)
    }

    // ---------- Claiming ----------

    function ClaimableIds(): (ids: set<JobId>)
      reads this
      ensures forall id :: id in ids <==> Claimable(Db(queue, urls, nextId), id, jobType)
    {
      set id | id in queue && queue[id].status == Pending && queue[id].jobType == jobType
    }

    method PeekPendingIds(limit: nat) returns (ids: seq<JobId>)
      ensures Pick.IsFirst(ClaimableIds(), Pick.ById, limit, ids)
    {
      ids := Pick.TakeFirst(ClaimableIds(), Pick.ById, limit);
    }

    // `locked` are the rows locked by other transactions, which SKIP LOCKED passes over.
    method ClaimNext(locked: set<JobId>, now: Time) returns (claimed: Option<JobId>)
      modifies this`queue
      ensures claimed.None? <==> old(ClaimableIds()) <= locked
      ensures claimed.None? ==> Contents() == old(Contents())
      ensures claimed.Some? ==>
        && claimed.value in old(ClaimableIds()) - locked
        && (forall id :: id in old(ClaimableIds()) - locked ==> claimed.value <= id)
        && Contents() == Claim(old(Contents()), claimed.value, jobType, now)
    {
      var free := ClaimableIds() - locked;
      var first := Pick.TakeFirst(free, Pick.ById, 1);
      if first == [] {
        forall id | id in ClaimableIds() ensures id in locked {
          assert id in free || id in locked;
        }
        return None;
      }
      Pick.HeadIsLeast(free, Pick.ById, 1, first);
      var row := queue[first[0]];
      row := row.(status := InProgress);
      row := row.(lockedAt := Some(now));
      queue := queue[first[0] := row];
      return Some(first[0]);
    }

    // `skipped`: the row is locked by another transaction.
    method ClaimById(id: JobId, skipped: bool, now: Time) returns (claimed: bool)
      modifies this`queue
      ensures claimed <==> !skipped && Claimable(old(Contents()), id, jobType)
      ensures Contents() == if skipped then old(Contents()) else Claim(old(Contents()), id, jobType, now)
    {
      if skipped || id !in queue || queue[id].status != Pending || queue[id].jobType != jobType {
        return false;
      }
      var row := queue[id];
      row := row.(status := InProgress);
      row := row.(lockedAt := Some(now));
      queue := queue[id := row];
      return true;
    }

    method ReleaseToPending(id: JobId) returns (released: bool)
      modifies this`queue
      ensures released <==> Releasable(old(Contents()), id, jobType)
      ensures Contents() == Release(old(Contents()), id, jobType)
    {
      released := id in queue && queue[id].status == InProgress && queue[id].jobType == jobType;
      if released {
        queue := queue[id := queue[id].(status := Pending, lockedAt := None)];
      }
    }

    // ---------- Completion and failure, three codings of the retry ceiling ----------

    method MarkDone(id: JobId, now: Time) returns (found: bool)
      modifies this`queue
      ensures found <==> id in old(queue)
      ensures Contents() ==
        if found then SetRow(old(Contents()), id, Completed(old(queue)[id], now)) else old(Contents())
    {
      if id !in queue {
        return false;
      }
      var row := queue[id];
      row := row.(status := Done);
      row := row.(completedAt := Some(now));
      row := row.(lockedAt := None);
      queue := queue[id := row];
      return true;
    }

    // The generic repository: a failed job always goes back to the queue.
    method MarkFailedForever(id: JobId, error: string) returns (found: bool)
      modifies this`queue
      ensures found <==> id in old(queue)
      ensures Contents() ==
        if found then SetRow(old(Contents()), id, Requeued(old(queue)[id], error)) else old(Contents())
    {
      if id !in queue {
        return false;
      }
      var row := queue[id];
      row := row.(retryCount := row.retryCount + 1);
      row := row.(errorMessage := Some(error));
      row := row.(lockedAt := None);
      row := row.(status := Pending);
      queue := queue[id := row];
      return true;
    }

    // The player_info repository: the ceiling is `IsTerminal` on the count before this failure.
    method MarkFailed(id: JobId, error: string, maxRetries: int, now: Time) returns (found: bool)
      modifies this`queue
      ensures found <==> id in old(queue)
      ensures Contents() ==
        if found then SetRow(old(Contents()), id, FailedOnce(old(queue)[id], error, maxRetries, now))
        else old(Contents())
    {
      if id !in queue {
        return false;
      }
      var row := queue[id];
      row := row.(retryCount := row.retryCount + 1);
      row := row.(errorMessage := Some(error));
      row := row.(lockedAt := None);
      if IsTerminal(row.retryCount - 1, maxRetries) {
        row := row.(status := Failed);
        row := row.(completedAt := Some(now));
      } else {
        row := row.(status := Pending);
      }
      queue := queue[id := row];
      return true;
    }

    // The JobLoop repository: the ceiling compares the count after this failure.
    method MarkJobFailed(id: JobId, error: string, maxRetries: int, now: Time) returns (status: Status)
      requires id in queue
      modifies this`queue
      ensures Contents() == SetRow(old(Contents()), id, FailedOnce(old(queue)[id], error, maxRetries, now))
      ensures status == queue[id].status
    {
      var row := queue[id];
      row := row.(retryCount := row.retryCount + 1);
      row := row.(errorMessage := Some(error));
      row := row.(lockedAt := None);
      if row.retryCount >= maxRetries {
        row := row.(status := Failed);
        row := row.(completedAt := Some(now));
      } else {
        row := row.(status := Pending);
      }
      queue := queue[id := row];
      return row.status;
    }

    // ---------- Bulk recovery ----------

    method RecoverAllStale() returns (count: nat)
      modifies this`queue
      ensures Contents() == QueueOps.RecoverAllStale(old(Contents()), jobType)
      ensures forall id :: id in queue && queue[id].jobType == jobType ==> queue[id].status != InProgress
      ensures count ==
        |set id | id in old(queue) && old(queue)[id].jobType == jobType && old(queue)[id].status == InProgress|
    {
      Transitions.NothingInProgressAfterRecovery(Contents(), jobType);
      var hit := set id | id in queue && queue[id].jobType == jobType && queue[id].status == InProgress;
      count := |hit|;
      queue := map id | id in queue :: if id in hit then queue[id].(status := Pending, lockedAt := None) else queue[id];
    }

    method RecoverFailed() returns (count: nat)
      modifies this`queue
      ensures Contents() == QueueOps.RecoverFailed(old(Contents()), jobType)
      ensures count ==
        |set id | id in old(queue) && old(queue)[id].jobType == jobType && old(queue)[id].status == Failed|
    {
      var hit := set id | id in queue && queue[id].jobType == jobType && queue[id].status == Failed;
      count := |hit|;
      queue := map id | id in queue ::
        if id in hit then queue[id].(status := Pending, retryCount := 0, errorMessage := None, completedAt := None)
        else queue[id];
    }

    method RecoverStale(cutoffMinutes: int, now: Time) returns (count: nat)
      modifies this`queue
      ensures Contents() == UpdateWhere(old(Contents()), LockedBefore(jobType, now - cutoffMinutes * 60), Released)
      ensures forall id :: id in old(queue) ==>
        var q := old(queue)[id];
        id in queue && queue[id] ==
          if q.jobType == jobType && q.status == InProgress
             && q.lockedAt.Some? && q.lockedAt.value < now - cutoffMinutes * 60
          then q.(status := Pending, lockedAt := None) else q
      ensures count == HitCount(old(Contents()), LockedBefore(jobType, now - cutoffMinutes * 60))
    {
      var hit := set id | id in queue && LockedBefore(jobType, now - cutoffMinutes * 60)(queue[id]);
      count := |hit|;
      queue := map id | id in queue :: if id in hit then queue[id].(status := Pending, lockedAt := None) else queue[id];
    }

    // ---------- The registry half ----------

    method MarkScraped(u: UrlId, now: Time)
      modifies this`urls
      ensures Contents() == QueueOps.MarkScraped(old(Contents()), u, now)
    {
      if u in urls {
        var row := urls[u];
        row := row.(status := Active);
        row := row.(lastScrapedAt := Some(now), lastScrapeStatus := Some("SUCCESS"));
        row := row.(nextScrapeAt := now + row.cadenceHours * SECS_PER_HOUR);
        row := row.(retryCount := 0, lastError := None);
        urls := urls[u := row];
      }
    }

    method RecoverStaleUrl(u: UrlId, now: Time)
      modifies this`urls
      ensures urls == if u in old(urls) && old(urls)[u].status == Stale
                      then old(urls)[u := UrlRevived(old(urls)[u], now)] else old(urls)
    {
      if u in urls && urls[u].status == Stale {
        urls := urls[u := urls[u].(status := Unscraped, retryCount := 0, lastError := None, nextScrapeAt := now)];
      }
    }

    // ---------- Transactions over both tables ----------

    // The statements of the worker's success transaction that touch the two tables.
    method CommitSuccess(id: JobId, now: Time) returns (found: bool)
      modifies this`queue, this`urls
      ensures found <==> id in old(queue)
      ensures Contents() == if found then Succeed(old(Contents()), id, now) else old(Contents())
    {
      found := MarkDone(id, now);
      if found {
        if queue[id].fkUrl.Some? {
          MarkScraped(queue[id].fkUrl.value, now);
        }
      }
    }

    method RecoverFailedJob(id: JobId, now: Time) returns (result: Recovery)
      modifies this`queue, this`urls
      ensures result.Recovered? <==> Recoverable(old(Contents()), id)
      ensures result.NotFound? <==> id !in old(queue)
      ensures result.WrongType? <==> id in old(queue) && !IsPlayerJob(old(Contents()), id)
      ensures result.WrongState? <==> IsPlayerJob(old(Contents()), id) && old(queue)[id].status != Failed
      ensures result.NoUrl? <==>
        IsPlayerJob(old(Contents()), id) && old(queue)[id].status == Failed && old(queue)[id].fkUrl.None?
      ensures result.UrlNotStale? <==>
        && IsPlayerJob(old(Contents()), id) && old(queue)[id].status == Failed && old(queue)[id].fkUrl.Some?
        && old(queue)[id].fkUrl.value in old(urls) && old(urls)[old(queue)[id].fkUrl.value].status != Stale
      ensures Contents() == RecoverJob(old(Contents()), id, now)
    {
      if id !in queue { return NotFound; }
      var row := queue[id];
      if row.jobType != PLAYER_INFO { return WrongType; }
      if row.status != Failed { return WrongState; }
      if row.fkUrl.None? { return NoUrl; }
      var u := row.fkUrl.value;
      if u !in urls { return UrlMissing; }
      if urls[u].status != Stale { return UrlNotStale; }
      row := row.(status := Pending);
      row := row.(retryCount := 0);
      row := row.(errorMessage := None, completedAt := None, lockedAt := None);
      queue := queue[id := row];
      RecoverStaleUrl(u, now);
      return Recovered;
    }

    method RecordJobFailure(id: JobId, error: string, maxRetries: int, now: Time) returns (outcome: Outcome)
      modifies this`queue, this`urls
      ensures outcome == FailureOutcome(old(Contents()), id)
      ensures Contents() == RecordFailure(old(Contents()), id, error, maxRetries, now)
    {
      if id !in queue { return Skipped; }
      var row := queue[id];
      if row.jobType != PLAYER_INFO { return Skipped; }
      if row.fkUrl.Some? && row.fkUrl.value !in urls { return Rejected; }
      var newRetry := row.retryCount + 1;
      var terminal := newRetry >= maxRetries;
      row := row.(retryCount := newRetry);
      row := row.(errorMessage := Some(error));
      row := row.(lockedAt := None);
      if terminal {
        row := row.(status := Failed);
        row := row.(completedAt := Some(now));
      } else {
        row := row.(status := Pending);
      }
      queue := queue[id := row];
      if row.fkUrl.Some? {
        var u := urls[row.fkUrl.value];
        if terminal {
          u := u.(status := Stale);
        }
        u := u.(retryCount := newRetry, lastError := Some(error), lastScrapeStatus := Some("FAILURE"));
        urls := urls[row.fkUrl.value := u];
      }
      return Applied;
    }

    // Up to `attempts` tries; `raises(i)` says that the database fails during try `i`, which
    // then commits nothing. The failure is recorded exactly once or not at all.
    method RecordFailureWithRetry(id: JobId, error: string, maxRetries: int, attempts: nat,
                                  raises: nat -> bool, clock: nat -> Time)
      returns (result: Recording, ghost at: nat)
      modifies this`queue, this`urls
      ensures result.Fatal? <==> forall i :: 1 <= i <= attempts ==> raises(i)
      ensures result.Inconsistent? <==> !result.Fatal? && FailureOutcome(old(Contents()), id) == Rejected
      ensures result.Recorded? ==>
        && 1 <= at <= attempts && !raises(at) && (forall i :: 1 <= i < at ==> raises(i))
        && Contents() == RecordFailure(old(Contents()), id, error, maxRetries, clock(at))
      ensures !result.Recorded? ==> Contents() == old(Contents())
    {
      at := 1;
      for attempt := 1 to attempts + 1
        invariant Contents() == old(Contents())
        invariant forall i :: 1 <= i < attempt ==> raises(i)
      {
        if !raises(attempt) {
          at := attempt;
          var outcome := RecordJobFailure(id, error, maxRetries, clock(attempt));
          if outcome.Rejected? {
            return Inconsistent, at;
          }
          return Recorded, at;
        }
      }
      result := Fatal;
    }
  }
}
