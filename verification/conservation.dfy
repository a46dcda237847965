/**
 What the workers' counters and the event history say about a run of buffered mode.
 */
module Conservation {
  import opened Tables
  import opened QueueOps
  import opened BufferedRun
  import opened Tally
  import Lifecycle

  // ---------- The counters count jobs that became DONE ----------

  function Processed(x: Worker): nat {
    x.processed
  }

  function NewlyDone(db: Db, db': Db): set<JobId> {
    set id | id in db.queue && db.queue[id].status != Done && id in db'.queue && db'.queue[id].status == Done
  }

  // A row becomes DONE exactly by the success step of the worker holding it.
  lemma DoneByItsHolder(cfg: Config, s: State, a: Action, id: JobId)
    requires TablesOk(cfg, s) && Enabled(s, a) && id in s.db.queue
    ensures id in NewlyDone(s.db, Next(cfg, s, a).db) <==> a.Succeeds? && Held(Pc(s, a.w)) == Some(id)
  {
    StepIsTransaction(cfg, s, a);
    assert id < s.db.nextId;
    var op := DbOp(cfg, s, a);
    if op.Some? && op.value.Schedule? && op.value.conflict.Some? {
      Lifecycle.ScheduleTarget(s.db, op.value.u, op.value.conflict);
    }
  }

  lemma StepCompletes(cfg: Config, s: State, a: Action)
    requires TablesOk(cfg, s) && Enabled(s, a)
    ensures NewlyDone(s.db, Next(cfg, s, a).db) == if a.Succeeds? then {Pc(s, a.w).job} else {}
  {
    var done := NewlyDone(s.db, Next(cfg, s, a).db);
    if a.Succeeds? {
      assert Held(Pc(s, a.w)) == Some(Pc(s, a.w).job);
      assert Pc(s, a.w).job in s.db.queue;
    }
    forall id | id in s.db.queue ensures id in done <==> a.Succeeds? && id == Pc(s, a.w).job {
      DoneByItsHolder(cfg, s, a, id);
    }
  }

  // Transitions to DONE in a run, committed by steps that `who` picks.
  ghost function Transitions(cfg: Config, s: State, acts: seq<Action>, who: Action -> bool): nat
    requires ValidRun(cfg, s, acts)
    decreases |acts|
  {
    if acts == [] then 0
    else
      var s' := Next(cfg, s, acts[0]);
      (if who(acts[0]) then |NewlyDone(s.db, s'.db)| else 0) + Transitions(cfg, s', acts[1..], who)
  }

  function Anyone(): Action -> bool {
    a => true
  }

  function By(w: nat): Action -> bool {
    a => IsWorkerStep(a) && a.w == w
  }

  lemma CounterStep(cfg: Config, s: State, a: Action, w: nat)
    requires Enabled(s, a) && !a.Reboot? && w < |s.workers|
    ensures var s' := Next(cfg, s, a);
      && |s'.workers| == |s.workers|
      && s'.workers[w].processed == s.workers[w].processed + if a.Succeeds? && a.w == w then 1 else 0
  {
  }

  // Each worker's counter grows by the number of jobs its steps made DONE.
  lemma {:induction false} EachCounts(cfg: Config, s: State, acts: seq<Action>, w: nat)
    requires TablesOk(cfg, s) && ValidRun(cfg, s, acts) && NoReboot(acts) && w < |s.workers|
    ensures var s' := Run(cfg, s, acts);
      && |s'.workers| == |s.workers|
      && s'.workers[w].processed == s.workers[w].processed + Transitions(cfg, s, acts, By(w))
    decreases |acts|
  {
    if acts != [] {
      StepCompletes(cfg, s, acts[0]);
      CounterStep(cfg, s, acts[0], w);
      TablesKept(cfg, s, acts[0]);
      EachCounts(cfg, Next(cfg, s, acts[0]), acts[1..], w);
    }
  }

  lemma TotalStep(cfg: Config, s: State, a: Action)
    requires TablesOk(cfg, s) && Enabled(s, a) && !a.Reboot?
    ensures var s' := Next(cfg, s, a);
      Sum(Processed, s'.workers) == Sum(Processed, s.workers) + |NewlyDone(s.db, s'.db)|
  {
    var s' := Next(cfg, s, a);
    StepCompletes(cfg, s, a);
    forall w: nat | w < |s.workers|
      ensures |s'.workers| == |s.workers|
      ensures s'.workers[w].processed == s.workers[w].processed + if a.Succeeds? && a.w == w then 1 else 0
    {
      CounterStep(cfg, s, a, w);
    }
    if a.Succeeds? {
      SumUpdate(Processed, s.workers, a.w, s'.workers[a.w]);
    } else {
      SumSame(Processed, s.workers, s'.workers);
    }
  }

  // Together the counters grow by the number of jobs that became DONE.
  lemma {:induction false} AllCount(cfg: Config, s: State, acts: seq<Action>)
    requires TablesOk(cfg, s) && ValidRun(cfg, s, acts) && NoReboot(acts)
    ensures Sum(Processed, Run(cfg, s, acts).workers) == Sum(Processed, s.workers) + Transitions(cfg, s, acts, Anyone())
    decreases |acts|
  {
    if acts != [] {
      TotalStep(cfg, s, acts[0]);
      TablesKept(cfg, s, acts[0]);
      AllCount(cfg, Next(cfg, s, acts[0]), acts[1..]);
    }
  }

  // So from boot the counters add up to the transitions to DONE that this process committed.
  lemma CountersSinceBoot(cfg: Config, db: Db, n: nat, maxsize: int, now: Time, log: seq<Event>, acts: seq<Action>)
    requires var s0 := Booted(db, n, maxsize, now, log);
      TablesOk(cfg, s0) && ValidRun(cfg, s0, acts) && NoReboot(acts)
    ensures var s0 := Booted(db, n, maxsize, now, log);
      Sum(Processed, Run(cfg, s0, acts).workers) == Transitions(cfg, s0, acts, Anyone())
  {
    var s0 := Booted(db, n, maxsize, now, log);
    AllCount(cfg, s0, acts);
    SumUniform(Processed, s0.workers, 0);
  }

  // ---------- One completion an activation, a cadence apart ----------

  type Cadences = map<UrlId, int>

  function CadencesOf(db: Db): Cadences {
    map u | u in db.urls :: db.urls[u].cadenceHours
  }

  lemma CadencesKept(db: Db, op: Lifecycle.Op, maxRetries: int)
    ensures CadencesOf(Lifecycle.Apply(db, op, maxRetries)) == CadencesOf(db)
  {
  }

  // When a URL completed at `at` is due again.
  function Due(cadences: Cadences, u: UrlId, at: Time): Time {
    at + (if u in cadences then cadences[u] * SECS_PER_HOUR else 0)
  }

  function LastEvent(log: seq<Event>, u: UrlId): Option<Event> {
    if log == [] then None
    else if log[|log| - 1].u == u then Some(log[|log| - 1])
    else LastEvent(log[..|log| - 1], u)
  }

  ghost predicate Spaced(cadences: Cadences, log: seq<Event>) {
    log != [] ==>
      var last := log[|log| - 1];
      var before := LastEvent(log[..|log| - 1], last.u);
      && Spaced(cadences, log[..|log| - 1])
      && (before.Some? && before.value.Completed? ==>
            last.Activated? && last.at >= Due(cadences, last.u, before.value.at))
  }

  // The last event of a URL was a completion: its job is DONE and the registry holds its due time.
  ghost predicate Resting(db: Db, u: UrlId, at: Time) {
    && u in db.urls && db.urls[u].nextScrapeAt == Due(CadencesOf(db), u, at)
    && exists id :: IsPlayerJob(db, id) && db.queue[id].fkUrl == Some(u) && db.queue[id].status == Done
  }

  ghost predicate History(s: State) {
    && Spaced(CadencesOf(s.db), s.log)
    && (forall k :: 0 <= k < |s.log| ==> s.log[k].u in s.db.urls)
    && (forall u :: LastEvent(s.log, u).Some? && LastEvent(s.log, u).value.Completed? ==>
          Resting(s.db, u, LastEvent(s.log, u).value.at))
  }

  // Transactions other than scheduling `u` leave a resting URL resting.
  lemma RestingKept(db: Db, op: Lifecycle.Op, maxRetries: int, u: UrlId, at: Time)
    requires Lifecycle.PairInv(db, maxRetries) && Lifecycle.Transaction(db, op) && Resting(db, u, at)
    requires !(op.Schedule? && op.u == u)
    requires op.Success? || op.RecordJobFailure? ==> IsPlayerJob(db, op.id) && db.queue[op.id].status == InProgress
    ensures Resting(Lifecycle.Apply(db, op, maxRetries), u, at)
  {
    var db' := Lifecycle.Apply(db, op, maxRetries);
    var id :| IsPlayerJob(db, id) && db.queue[id].fkUrl == Some(u) && db.queue[id].status == Done;
    assert Linked(db, db.queue[id]);
    CadencesKept(db, op, maxRetries);
    if op.Success? || op.RecordJobFailure? || op.RecoverFailedJob? {
      if IsPlayerJob(db, op.id) && db.queue[op.id].fkUrl == Some(u) {
        OneJobPerUrl(db, id, op.id);
      }
    } else if op.Schedule? {
      assert id < db.nextId;
      if op.conflict.Some? {
        Lifecycle.ScheduleTarget(db, op.u, op.conflict);
      }
    }
    assert IsPlayerJob(db', id) && db'.queue[id] == db.queue[id];
  }

  lemma LastEventSnoc(log: seq<Event>, e: Event, u: UrlId)
    ensures LastEvent(log + [e], u) == if e.u == u then Some(e) else LastEvent(log, u)
  {
    assert (log + [e])[..|log + [e]| - 1] == log;
  }

  lemma RestingStep(cfg: Config, s: State, a: Action, u: UrlId, at: Time)
    requires TablesOk(cfg, s) && Enabled(s, a) && Resting(s.db, u, at)
    requires !(a.ScheduleUrl? && a.u == u)
    ensures Resting(Next(cfg, s, a).db, u, at)
  {
    StepIsTransaction(cfg, s, a);
    var op := DbOp(cfg, s, a);
    if op.Some? {
      assert a.Succeeds? || a.RecordRow? ==> Held(Pc(s, a.w)).Some?;
      RestingKept(s.db, op.value, cfg.maxRetries, u, at);
    }
  }

  // The job that completes was not resting, and comes to rest.
  lemma CompletionStep(cfg: Config, s: State, a: Action)
    requires TablesOk(cfg, s) && Enabled(s, a) && a.Succeeds?
    ensures var s' := Next(cfg, s, a); var e := s'.log[|s.log|];
      && Resting(s'.db, e.u, e.at)
      && forall at :: !Resting(s.db, e.u, at)
  {
    var s' := Next(cfg, s, a);
    var id := Held(Pc(s, a.w)).value;
    assert Linked(s.db, s.db.queue[id]);
    assert IsPlayerJob(s'.db, id) && s'.db.queue[id].status == Done;
    forall other | IsPlayerJob(s.db, other) && s.db.queue[other].fkUrl == s.db.queue[id].fkUrl
      ensures s.db.queue[other].status == InProgress
    {
      OneJobPerUrl(s.db, other, id);
    }
  }

  lemma CadencesStep(cfg: Config, s: State, a: Action)
    requires Enabled(s, a)
    ensures CadencesOf(Next(cfg, s, a).db) == CadencesOf(s.db)
  {
    StepIsTransaction(cfg, s, a);
    var op := DbOp(cfg, s, a);
    if op.Some? {
      CadencesKept(s.db, op.value, cfg.maxRetries);
    }
  }

  lemma LogStep(cfg: Config, s: State, a: Action)
    requires Enabled(s, a)
    ensures var s' := Next(cfg, s, a);
      if a.Succeeds? then |s'.log| > |s.log| && s'.log == s.log + [Completed(s'.log[|s.log|].u, s.now)]
      else if a.ScheduleUrl? then s'.log == s.log + [Activated(a.u, s.now)]
      else s'.log == s.log
  {
  }

  lemma SpacedSnoc(cadences: Cadences, log: seq<Event>, e: Event)
    requires Spaced(cadences, log)
    requires var before := LastEvent(log, e.u);
      before.Some? && before.value.Completed? ==> e.Activated? && e.at >= Due(cadences, e.u, before.value.at)
    ensures Spaced(cadences, log + [e])
  {
    assert (log + [e])[..|log|] == log;
  }

  lemma SpacingKept(cfg: Config, s: State, a: Action)
    requires TablesOk(cfg, s) && History(s) && Enabled(s, a)
    ensures Spaced(CadencesOf(s.db), Next(cfg, s, a).log)
  {
    var s' := Next(cfg, s, a);
    LogStep(cfg, s, a);
    if a.Succeeds? {
      CompletionStep(cfg, s, a);
    }
    if a.Succeeds? || a.ScheduleUrl? {
      SpacedSnoc(CadencesOf(s.db), s.log, s'.log[|s.log|]);
    }
  }

  lemma HistoryKept(cfg: Config, s: State, a: Action)
    requires TablesOk(cfg, s) && History(s) && Enabled(s, a)
    ensures History(Next(cfg, s, a))
  {
    var s' := Next(cfg, s, a);
    SpacingKept(cfg, s, a);
    CadencesStep(cfg, s, a);
    LogNamesUrls(cfg, s, a);
    forall u | LastEvent(s'.log, u).Some? && LastEvent(s'.log, u).value.Completed?
      ensures Resting(s'.db, u, LastEvent(s'.log, u).value.at)
    {
      RestingAfter(cfg, s, a, u);
    }
  }

  lemma LogNamesUrls(cfg: Config, s: State, a: Action)
    requires TablesOk(cfg, s) && Enabled(s, a) && forall k :: 0 <= k < |s.log| ==> s.log[k].u in s.db.urls
    ensures var s' := Next(cfg, s, a); forall k :: 0 <= k < |s'.log| ==> s'.log[k].u in s'.db.urls
  {
    CadencesStep(cfg, s, a);
    assert Next(cfg, s, a).db.urls.Keys == CadencesOf(s.db).Keys == s.db.urls.Keys;
    LogStep(cfg, s, a);
    if a.Succeeds? {
      CompletionStep(cfg, s, a);
    }
  }

  // A URL whose last event is a completion after a step, be it this one, rests.
  lemma RestingAfter(cfg: Config, s: State, a: Action, u: UrlId)
    requires TablesOk(cfg, s) && History(s) && Enabled(s, a)
    requires var log := Next(cfg, s, a).log; LastEvent(log, u).Some? && LastEvent(log, u).value.Completed?
    ensures Resting(Next(cfg, s, a).db, u, LastEvent(Next(cfg, s, a).log, u).value.at)
  {
    var s' := Next(cfg, s, a);
    LogStep(cfg, s, a);
    if s'.log != s.log {
      LastEventSnoc(s.log, s'.log[|s.log|], u);
    }
    if a.Succeeds? && s'.log[|s.log|].u == u {
      CompletionStep(cfg, s, a);
    } else {
      RestingStep(cfg, s, a, u, LastEvent(s.log, u).value.at);
    }
  }

  lemma {:induction false} HistoryAlways(cfg: Config, s: State, acts: seq<Action>)
    requires TablesOk(cfg, s) && History(s) && ValidRun(cfg, s, acts)
    ensures History(Run(cfg, s, acts)) && CadencesOf(Run(cfg, s, acts).db) == CadencesOf(s.db)
    decreases |acts|
  {
    if acts != [] {
      TablesKept(cfg, s, acts[0]);
      HistoryKept(cfg, s, acts[0]);
      CadencesStep(cfg, s, acts[0]);
      HistoryAlways(cfg, Next(cfg, s, acts[0]), acts[1..]);
    }
  }

  lemma {:induction false} SpacedPrefix(cadences: Cadences, log: seq<Event>, n: nat)
    requires Spaced(cadences, log) && n <= |log|
    ensures Spaced(cadences, log[..n])
  {
    if n < |log| {
      SpacedPrefix(cadences, log[..|log| - 1], n);
      assert log[..|log| - 1][..n] == log[..n];
    } else {
      assert log[..n] == log;
    }
  }

  lemma {:induction false} LastEventIs(log: seq<Event>, i: nat)
    requires i < |log| && forall k :: i < k < |log| ==> log[k].u != log[i].u
    ensures LastEvent(log, log[i].u) == Some(log[i])
  {
    if i < |log| - 1 {
      LastEventIs(log[..|log| - 1], i);
    }
  }

  // From any boot on tables in order, over every interleaving, crashes included: the event of a URL
  // that follows a completion is an activation, and it comes no sooner than the URL's cadence after it.
  lemma CadenceRespected(cfg: Config, db: Db, n: nat, maxsize: int, now: Time, acts: seq<Action>, i: nat, j: nat)
    requires TablesOk(cfg, Booted(db, n, maxsize, now, [])) && ValidRun(cfg, Booted(db, n, maxsize, now, []), acts)
    requires var log := Run(cfg, Booted(db, n, maxsize, now, []), acts).log;
      && i < j < |log| && log[i].Completed? && log[j].u == log[i].u
      && (forall k :: i < k < j ==> log[k].u != log[i].u)
    ensures var s := Run(cfg, Booted(db, n, maxsize, now, []), acts); var u := s.log[i].u;
      s.log[j].Activated? && u in s.db.urls && s.log[j].at >= s.log[i].at + s.db.urls[u].cadenceHours * SECS_PER_HOUR
  {
    var s0 := Booted(db, n, maxsize, now, []);
    var s := Run(cfg, s0, acts);
    HistoryAlways(cfg, s0, acts);
    SpacedPair(CadencesOf(s.db), s.log, i, j);
  }

  lemma SpacedPair(cadences: Cadences, log: seq<Event>, i: nat, j: nat)
    requires Spaced(cadences, log) && i < j < |log| && log[i].Completed? && log[j].u == log[i].u
    requires forall k :: i < k < j ==> log[k].u != log[i].u
    ensures log[j].Activated? && log[j].at >= Due(cadences, log[i].u, log[i].at)
  {
    SpacedPrefix(cadences, log, j + 1);
    assert log[..j + 1][..j] == log[..j];
    LastEventIs(log[..j], i);
  }

  // A completion is logged for the URL of the job that became DONE, whose registry row then holds
  // the commit time plus its cadence.
  lemma DueIsACadenceLater(cfg: Config, s: State, a: Action)
    requires TablesOk(cfg, s) && Enabled(s, a) && a.Succeeds?
    ensures var s' := Next(cfg, s, a); var e := s'.log[|s.log|];
      && NewlyDone(s.db, s'.db) == {Pc(s, a.w).job} && s.db.queue[Pc(s, a.w).job].fkUrl == Some(e.u)
      && e.u in s.db.urls && e == Completed(e.u, s.now)
      && s'.db.urls[e.u].nextScrapeAt == s.now + s.db.urls[e.u].cadenceHours * SECS_PER_HOUR
      && s'.db.urls[e.u].cadenceHours == s.db.urls[e.u].cadenceHours
  {
    StepCompletes(cfg, s, a);
    var id := Held(Pc(s, a.w)).value;
    assert Linked(s.db, s.db.queue[id]);
  }
}
