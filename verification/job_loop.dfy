/**
 JobLoop.drain: batches of PENDING rows, each row processed by its own concurrent coroutine.

 A coroutine commits twice: the IN_PROGRESS mark, and what came of it. What comes of it is an outcome:
 the first commit fails, the row succeeds, its failure is recorded, or the coroutine dies in between.
 */
module JobLoop {
  import opened Tables
  import opened QueueOps
  import Pick

  datatype Outcome = NeverBegins | Succeeds | Fails(error: string) | Dies

  type Rows = map<JobId, QueueRow>

  // `provenance` counts the SUCCESS rows written for each job.
  datatype Loop = Loop(rows: Rows, provenance: multiset<JobId>)

  datatype Micro = Begin(id: JobId) | Finish(id: JobId)

  // What happens to each row of a batch, and the time of each commit.
  datatype Env = Env(outcome: JobId -> Outcome, at: Micro -> Time, maxRetries: int)

  function PendingIn(rows: Rows): (ids: set<JobId>)
    ensures forall id :: id in ids <==> id in rows && rows[id].status == Pending
  {
    set id | id in rows && rows[id].status == Pending
  }

  // ---------- One coroutine ----------

  function Begun(q: QueueRow, id: JobId, e: Env): QueueRow {
    if e.outcome(id).NeverBegins? then q else Claimed(q, e.at(Begin(id)))
  }

  function Finished(q: QueueRow, id: JobId, e: Env): QueueRow {
    match e.outcome(id)
    case Succeeds => Completed(q, e.at(Finish(id)))
    case Fails(error) => FailedOnce(q, error, e.maxRetries, e.at(Finish(id)))
    case _ => q
  }

  function Processed(q: QueueRow, id: JobId, e: Env): QueueRow {
    Finished(Begun(q, id, e), id, e)
  }

  function Step(s: Loop, m: Micro, e: Env): Loop {
    if m.id !in s.rows then s
    else match m
      case Begin(id) => s.(rows := s.rows[id := Begun(s.rows[id], id, e)])
      case Finish(id) =>
        Loop(s.rows[id := Finished(s.rows[id], id, e)],
             if e.outcome(id).Succeeds? then s.provenance + multiset{id} else s.provenance)
  }

  function Play(s: Loop, ms: seq<Micro>, e: Env): Loop {
    if ms == [] then s else Step(Play(s, ms[..|ms| - 1], e), ms[|ms| - 1], e)
  }

  // The steps of one row within a schedule.
  function Own(ms: seq<Micro>, id: JobId): seq<Micro> {
    if ms == [] then []
    else Own(ms[..|ms| - 1], id) + (if ms[|ms| - 1].id == id then [ms[|ms| - 1]] else [])
  }

  // Any interleaving in which each row of the batch begins and then finishes, once.
  ghost predicate Schedule(ms: seq<Micro>, ids: set<JobId>) {
    forall id :: Own(ms, id) == if id in ids then [Begin(id), Finish(id)] else []
  }

  lemma PlaySnoc(s: Loop, ms: seq<Micro>, m: Micro, e: Env)
    ensures Play(s, ms + [m], e) == Step(Play(s, ms, e), m, e)
  {
    assert (ms + [m])[..|ms|] == ms;
  }

  lemma OwnSnoc(ms: seq<Micro>, m: Micro, id: JobId)
    ensures Own(ms + [m], id) == Own(ms, id) + if m.id == id then [m] else []
  {
    assert (ms + [m])[..|ms|] == ms;
  }

  lemma {:induction false} PlayKeys(s: Loop, ms: seq<Micro>, e: Env)
    ensures Play(s, ms, e).rows.Keys == s.rows.Keys
  {
    if ms != [] {
      PlayKeys(s, ms[..|ms| - 1], e);
    }
  }

  lemma {:induction false} PlayIsRowwise(s: Loop, ms: seq<Micro>, e: Env, id: JobId)
    ensures var s' := Play(s, ms, e); var mine := Play(s, Own(ms, id), e);
      && s'.rows.Keys == mine.rows.Keys == s.rows.Keys
      && (id in s.rows ==> s'.rows[id] == mine.rows[id])
      && s'.provenance[id] == mine.provenance[id]
  {
    PlayKeys(s, ms, e);
    PlayKeys(s, Own(ms, id), e);
    if ms != [] {
      var init, last := ms[..|ms| - 1], ms[|ms| - 1];
      PlayIsRowwise(s, init, e, id);
      if last.id == id {
        PlaySnoc(s, Own(init, id), last, e);
      } else {
        assert Own(ms, id) == Own(init, id);
      }
    }
  }

  // What a batch does to the table, with no reference to an order.
  function BatchRows(rows: Rows, ids: set<JobId>, e: Env): Rows {
    map id | id in rows :: if id in ids then Processed(rows[id], id, e) else rows[id]
  }

  function Gains(ids: set<JobId>, e: Env): (gains: set<JobId>)
    ensures forall id :: id in gains <==> id in ids && e.outcome(id).Succeeds?
  {
    set id | id in ids && e.outcome(id).Succeeds?
  }

  lemma PlayOwn(s: Loop, id: JobId, e: Env)
    requires id in s.rows
    ensures var s' := Play(s, [Begin(id), Finish(id)], e);
      && id in s'.rows && s'.rows[id] == Processed(s.rows[id], id, e)
      && s'.provenance[id] == s.provenance[id] + if e.outcome(id).Succeeds? then 1 else 0
  {
    PlaySnoc(s, [], Begin(id), e);
    PlaySnoc(s, [] + [Begin(id)], Finish(id), e);
    assert [] + [Begin(id)] + [Finish(id)] == [Begin(id), Finish(id)];
  }

  // However the coroutines of a batch interleave, the table and the provenance are the same.
  lemma InterleavingIrrelevant(s: Loop, ms: seq<Micro>, ids: set<JobId>, e: Env)
    requires Schedule(ms, ids) && ids <= s.rows.Keys
    ensures var s' := Play(s, ms, e);
      && s'.rows == BatchRows(s.rows, ids, e)
      && s'.provenance == s.provenance + multiset(Gains(ids, e))
  {
    var s' := Play(s, ms, e);
    PlayKeys(s, ms, e);
    forall id: JobId
      ensures id in s.rows ==> s'.rows[id] == BatchRows(s.rows, ids, e)[id]
      ensures s'.provenance[id] == s.provenance[id] + if id in ids && e.outcome(id).Succeeds? then 1 else 0
    {
      PlayIsRowwise(s, ms, e, id);
      if id in ids {
        PlayOwn(s, id, e);
      }
    }
  }

  // What becomes of each row of a batch: DONE, one more failure against the ceiling, left IN_PROGRESS, or
  // untouched; a row outside it is untouched.
  lemma BatchMeans(rows: Rows, ids: set<JobId>, e: Env, id: JobId)
    requires id in rows
    ensures id in BatchRows(rows, ids, e)
    ensures var q, q' := rows[id], BatchRows(rows, ids, e)[id];
      var start, end := e.at(Begin(id)), e.at(Finish(id));
      if id !in ids then q' == q
      else match e.outcome(id)
        case NeverBegins => q' == q
        case Dies => q' == q.(status := InProgress, lockedAt := Some(start))
        case Succeeds => q' == q.(status := Done, completedAt := Some(end), lockedAt := None)
        case Fails(error) =>
          && q'.retryCount == q.retryCount + 1 && q'.errorMessage == Some(error) && q'.lockedAt == None
          && q' == q.(status := q'.status, retryCount := q'.retryCount, errorMessage := q'.errorMessage,
                      lockedAt := None, completedAt := q'.completedAt)
          && (if q'.retryCount < e.maxRetries then q'.status == Pending && q'.completedAt == q.completedAt
              else q'.status == Failed && q'.completedAt == Some(end))
  {
  }

  // ---------- The termination measure ----------

  // Failures a PENDING row can still be given, and at least one.
  function Weight(q: QueueRow, maxRetries: int): nat {
    if q.status != Pending then 0 else if maxRetries - q.retryCount >= 1 then maxRetries - q.retryCount else 1
  }

  ghost function Measure(rows: Rows, maxRetries: int): nat
    decreases |rows|
  {
    if rows.Keys == {} then 0
    else
      assert exists id :: id in rows.Keys by { var id := Pick.SomeMember(rows.Keys); }
      var id :| id in rows.Keys;
      Weight(rows[id], maxRetries) + Measure(rows - {id}, maxRetries)
  }

  lemma {:induction false} MeasureSplit(rows: Rows, id: JobId, maxRetries: int)
    requires id in rows
    ensures Measure(rows, maxRetries) == Weight(rows[id], maxRetries) + Measure(rows - {id}, maxRetries)
    decreases |rows|
  {
    var first :| first in rows.Keys
              && Measure(rows, maxRetries) == Weight(rows[first], maxRetries) + Measure(rows - {first}, maxRetries);
    if first != id {
      MeasureSplit(rows - {first}, id, maxRetries);
      MeasureSplit(rows - {id}, first, maxRetries);
      assert rows - {first} - {id} == rows - {id} - {first};
    }
  }

  lemma ProcessedIsLighter(q: QueueRow, id: JobId, e: Env)
    requires q.status == Pending && !e.outcome(id).NeverBegins?
    ensures Weight(Processed(q, id, e), e.maxRetries) < Weight(q, e.maxRetries)
  {
  }

  function Started(ids: set<JobId>, e: Env): (started: set<JobId>)
    ensures forall id :: id in started <==> id in ids && !e.outcome(id).NeverBegins?
  {
    set id | id in ids && !e.outcome(id).NeverBegins?
  }

  lemma StartedWithout(ids: set<JobId>, e: Env, id: JobId)
    ensures |Started(ids, e)| == |Started(ids - {id}, e)| + if id in Started(ids, e) then 1 else 0
  {
    var rest := Started(ids - {id}, e);
    assert Started(ids, e) == if id in Started(ids, e) then rest + {id} else rest;
  }

  lemma BatchWithout(rows: Rows, ids: set<JobId>, e: Env, id: JobId)
    ensures BatchRows(rows, ids, e) - {id} == BatchRows(rows - {id}, ids - {id}, e)
  {
  }

  lemma PendingWithout(rows: Rows, ids: set<JobId>, id: JobId)
    requires ids <= PendingIn(rows)
    ensures ids - {id} <= PendingIn(rows - {id})
  {
    forall x | x in ids - {id} ensures x in PendingIn(rows - {id}) {
      assert x in PendingIn(rows);
    }
  }

  // A batch lowers the measure by at least the number of its rows that begin.
  lemma {:induction false} BatchIsLighter(rows: Rows, ids: set<JobId>, e: Env)
    requires ids <= PendingIn(rows)
    ensures Measure(BatchRows(rows, ids, e), e.maxRetries) + |Started(ids, e)| <= Measure(rows, e.maxRetries)
    decreases |rows|
  {
    var rows' := BatchRows(rows, ids, e);
    if rows.Keys == {} {
      assert Started(ids, e) == {} && rows'.Keys == {};
    } else {
      var id := Pick.SomeMember(rows.Keys);
      MeasureSplit(rows, id, e.maxRetries);
      MeasureSplit(rows', id, e.maxRetries);
      BatchWithout(rows, ids, e, id);
      PendingWithout(rows, ids, id);
      StartedWithout(ids, e, id);
      BatchIsLighter(rows - {id}, ids - {id}, e);
      if id in Started(ids, e) {
        assert id in PendingIn(rows);
        ProcessedIsLighter(rows[id], id, e);
      }
    }
  }

  // And by nothing at all if none begins: a drain whose IN_PROGRESS commits keep failing dispatches
  // the same rows again and again.
  lemma NothingBegins(rows: Rows, ids: set<JobId>, e: Env)
    requires Started(ids, e) == {}
    ensures BatchRows(rows, ids, e) == rows
  {
    forall id | id in rows ensures BatchRows(rows, ids, e)[id] == rows[id] {
      assert id !in Started(ids, e);
    }
  }

  // The order of list_pending, spelled as the set it returns.
  function Dispatched(ids: seq<JobId>): set<JobId> {
    set id | id in ids
  }

  function DoneIn(rows: Rows): (ids: set<JobId>)
    ensures forall id :: id in ids <==> id in rows && rows[id].status == Done
  {
    set id | id in rows && rows[id].status == Done
  }

  lemma BatchCompletions(rows: Rows, ids: set<JobId>, e: Env)
    requires ids <= PendingIn(rows)
    ensures DoneIn(BatchRows(rows, ids, e)) == DoneIn(rows) + Gains(ids, e)
    ensures DoneIn(rows) !! Gains(ids, e)
  {
    var rows' := BatchRows(rows, ids, e);
    forall id ensures id in DoneIn(rows') <==> id in DoneIn(rows) || id in Gains(ids, e) {
      assert id in ids ==> id in PendingIn(rows);
    }
  }

  // Adding the jobs a batch completed to the provenance keeps it in step with the DONE rows.
  lemma ProvenanceStep(start: set<JobId>, before: set<JobId>, gained: set<JobId>, base: multiset<JobId>,
                       p: multiset<JobId>)
    requires start <= before && before !! gained && p == base + multiset(before - start)
    ensures start <= before + gained
    ensures p + multiset(gained) == base + multiset(before + gained - start)
  {
    assert before + gained - start == (before - start) + gained;
    assert multiset((before - start) + gained) == multiset(before - start) + multiset(gained);
  }

  // A batch run one row after the other is one of its schedules.
  function Flat(batch: seq<JobId>): seq<Micro> {
    if batch == [] then []
    else Flat(batch[..|batch| - 1]) + [Begin(batch[|batch| - 1])] + [Finish(batch[|batch| - 1])]
  }

  lemma FlatSnoc(batch: seq<JobId>, id: JobId)
    ensures Flat(batch + [id]) == Flat(batch) + [Begin(id)] + [Finish(id)]
  {
    assert (batch + [id])[..|batch|] == batch;
  }

  ghost predicate Distinct(batch: seq<JobId>) {
    forall i, j :: 0 <= i < j < |batch| ==> batch[i] != batch[j]
  }

  lemma DispatchedSnoc(batch: seq<JobId>, id: JobId)
    ensures Dispatched(batch + [id]) == Dispatched(batch) + {id}
    ensures Distinct(batch + [id]) ==> Distinct(batch) && id !in Dispatched(batch)
  {
    var all := batch + [id];
    assert forall x :: x in all <==> x in batch || x == id;
    if Distinct(all) {
      forall i | 0 <= i < |batch| ensures batch[i] != id {
        assert all[i] != all[|batch|];
      }
      forall i, j | 0 <= i < j < |batch| ensures batch[i] != batch[j] {
        assert all[i] != all[j];
      }
    }
  }

  lemma {:induction false} FlatIsSchedule(batch: seq<JobId>)
    requires Distinct(batch)
    ensures Schedule(Flat(batch), Dispatched(batch))
  {
    if batch == [] {
      assert Flat(batch) == [] && Dispatched(batch) == {};
    } else {
      var init, last := batch[..|batch| - 1], batch[|batch| - 1];
      assert batch == init + [last];
      DispatchedSnoc(init, last);
      FlatSnoc(init, last);
      FlatIsSchedule(init);
      ExtendSchedule(Flat(init), Dispatched(init), last);
    }
  }

  lemma OwnPair(ms: seq<Micro>, id: JobId, x: JobId)
    ensures Own(ms + [Begin(id)] + [Finish(id)], x) == Own(ms, x) + if x == id then [Begin(id), Finish(id)] else []
  {
    OwnSnoc(ms, Begin(id), x);
    OwnSnoc(ms + [Begin(id)], Finish(id), x);
  }

  lemma ExtendSchedule(ms: seq<Micro>, ids: set<JobId>, id: JobId)
    requires Schedule(ms, ids) && id !in ids
    ensures Schedule(ms + [Begin(id)] + [Finish(id)], ids + {id})
  {
    var all := ms + [Begin(id)] + [Finish(id)];
    forall x: JobId ensures Own(all, x) == if x in ids + {id} then [Begin(x), Finish(x)] else [] {
      OwnPair(ms, id, x);
      assert Own(ms, x) == if x in ids then [Begin(x), Finish(x)] else [];
    }
  }

  lemma BatchIsDispatched(free: set<JobId>, limit: nat, batch: seq<JobId>)
    requires Pick.IsFirst(free, Pick.ById, limit, batch)
    ensures Dispatched(batch) <= free && |Dispatched(batch)| == |batch| && Distinct(batch)
    ensures batch == [] && limit >= 1 ==> free == {}
  {
    assert forall x :: x in Dispatched(batch) ==> x in batch;
    forall i, j | 0 <= i < j < |batch| ensures batch[i] != batch[j] {
      assert Pick.ById(batch[i], batch[j]);
    }
    Pick.DistinctCount(batch, Pick.ById);
  }

  class JobLoop {
    var rows: Rows
    var provenance: multiset<JobId>
    const maxRetries: int

    constructor (rows: Rows, maxRetries: int)
      ensures this.rows == rows && provenance == multiset{} && this.maxRetries == maxRetries
    {
      this.rows, this.provenance, this.maxRetries := rows, multiset{}, maxRetries;
    }

    ghost function State(): Loop
      reads this
    {
      Loop(rows, provenance)
    }

    // `locked` are the rows locked by other transactions, which SKIP LOCKED passes over.
    method ListPending(limit: nat, locked: set<JobId>) returns (ids: seq<JobId>)
      ensures Pick.IsFirst(PendingIn(rows) - locked, Pick.ById, limit, ids)
    {
      ids := Pick.TakeFirst(PendingIn(rows) - locked, Pick.ById, limit);
    }

    // A row that has vanished is left out; so is one whose IN_PROGRESS mark cannot be committed.
    method Process(id: JobId, e: Env)
      requires e.maxRetries == maxRetries
      modifies this
      ensures State() == Step(Step(old(State()), Begin(id), e), Finish(id), e)
    {
      if id !in rows {
        return;
      }
      var row := rows[id];
      var o := e.outcome(id);
      if o.NeverBegins? {
        assert rows[id := row] == rows;
        return;
      }
      row := row.(status := InProgress, lockedAt := Some(e.at(Begin(id))));
      rows := rows[id := row];
      var now := e.at(Finish(id));
      match o {
        case Succeeds =>
          provenance := provenance + multiset{id};
          rows := rows[id := row.(status := Done, completedAt := Some(now), lockedAt := None)];
        case Fails(error) =>
          row := row.(retryCount := row.retryCount + 1, errorMessage := Some(error), lockedAt := None);
          if row.retryCount >= maxRetries {
            row := row.(status := Failed, completedAt := Some(now));
          } else {
            row := row.(status := Pending);
          }
          rows := rows[id := row];
        case _ =>
      }
    }

    method RunBatch(batchSize: nat, locked: set<JobId>, e: Env) returns (processed: nat, ghost ids: set<JobId>)
      requires e.maxRetries == maxRetries
      modifies this
      ensures ids <= PendingIn(old(rows)) && processed == |ids|
      ensures processed == 0 && batchSize >= 1 ==> PendingIn(old(rows)) <= locked
      ensures rows == BatchRows(old(rows), ids, e)
      ensures provenance == old(provenance) + multiset(Gains(ids, e))
    {
      var batch := ListPending(batchSize, locked);
      ids := Dispatched(batch);
      ghost var s := State();
      BatchIsDispatched(PendingIn(rows) - locked, batchSize, batch);
      for i := 0 to |batch|
        invariant State() == Play(s, Flat(batch[..i]), e)
      {
        assert batch[..i + 1] == batch[..i] + [batch[i]];
        FlatSnoc(batch[..i], batch[i]);
        PlaySnoc(s, Flat(batch[..i]), Begin(batch[i]), e);
        PlaySnoc(s, Flat(batch[..i]) + [Begin(batch[i])], Finish(batch[i]), e);
        Process(batch[i], e);
      }
      assert batch[..|batch|] == batch;
      FlatIsSchedule(batch);
      InterleavingIrrelevant(s, Flat(batch), ids, e);
      processed := |batch|;
    }

    // `stopped(i)` says that the stop event is set when iteration `i` begins; `locked(i)` are the rows
    // others have locked then. Every IN_PROGRESS commit succeeds.
    method Drain(batchSize: nat, stopped: nat -> bool, locked: nat -> set<JobId>, env: nat -> Env)
      returns (total: nat, ghost batches: nat)
      requires forall i :: env(i).maxRetries == maxRetries && forall id :: !env(i).outcome(id).NeverBegins?
      modifies this
      ensures total + Measure(rows, maxRetries) <= Measure(old(rows), maxRetries)
      ensures stopped(batches) || batchSize == 0 || PendingIn(rows) <= locked(batches)
      ensures rows.Keys == old(rows).Keys
      ensures DoneIn(old(rows)) <= DoneIn(rows)
      ensures provenance == old(provenance) + multiset(DoneIn(rows) - DoneIn(old(rows)))
    {
      total, batches := 0, 0;
      var i := 0;
      assert DoneIn(rows) - DoneIn(rows) == {};
      while !stopped(i)
        invariant i == batches
        invariant total + Measure(rows, maxRetries) <= Measure(old(rows), maxRetries)
        invariant rows.Keys == old(rows).Keys
        invariant DoneIn(old(rows)) <= DoneIn(rows)
        invariant provenance == old(provenance) + multiset(DoneIn(rows) - DoneIn(old(rows)))
        decreases Measure(rows, maxRetries)
      {
        var processed := RunDrainBatch(batchSize, locked(i), env(i), old(DoneIn(rows)), old(provenance));
        if processed == 0 {
          break;
        }
        total := total + processed;
        i, batches := i + 1, batches + 1;
      }
    }

    // One iteration of the drain, with what it does to the measure and the provenance.
    method RunDrainBatch(batchSize: nat, locked: set<JobId>, e: Env, ghost start: set<JobId>,
                         ghost base: multiset<JobId>)
      returns (processed: nat)
      requires e.maxRetries == maxRetries && forall id :: !e.outcome(id).NeverBegins?
      requires start <= DoneIn(rows) && provenance == base + multiset(DoneIn(rows) - start)
      modifies this
      ensures processed + Measure(rows, maxRetries) <= Measure(old(rows), maxRetries)
      ensures rows.Keys == old(rows).Keys
      ensures start <= DoneIn(rows) && provenance == base + multiset(DoneIn(rows) - start)
      ensures processed == 0 ==> rows == old(rows)
      ensures processed == 0 && batchSize >= 1 ==> PendingIn(rows) <= locked
    {
      ghost var before := rows;
      ghost var ids;
      processed, ids := RunBatch(batchSize, locked, e);
      ghost var gained := Gains(ids, e);
      forall id | id in ids ensures id in Started(ids, e) {
        assert !e.outcome(id).NeverBegins?;
      }
      assert Started(ids, e) == ids;
      BatchIsLighter(before, ids, e);
      BatchCompletions(before, ids, e);
      ProvenanceStep(start, DoneIn(before), gained, base, old(provenance));
      assert DoneIn(rows) == DoneIn(before) + gained;
      if processed == 0 {
        assert Started(ids, e) == {};
        NothingBegins(before, ids, e);
      }
    }
  }
}
