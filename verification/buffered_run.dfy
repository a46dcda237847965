/**
 Buffered player_info mode as one state machine: the tables, the candidate buffer and its
 producer, the rate-limit gate and N workers, interleaved at awaits and commits.

 Navigation, parsing and probes are outcomes chosen by the action. A database call that raises
 has committed nothing.
 */
module BufferedRun {
  import opened Tables
  import opened QueueOps
  import Lifecycle
  import Gate
  import Pick
  import D = Dispatch

  const MAX_ATTEMPTS := 3
  const RECORD_ATTEMPTS := 3
  const FETCH_SLOTS := 2

  datatype Config = Config(maxRetries: int, gate: Gate.Settings)

  // What a worker does once its failure is recorded.
  datatype After = NextJob | NewEngine

  datatype WorkerPc =
    | Restarting                                    // no engine: starting up, or torn down
    | AtGate                                        // top of the claim loop
    | Getting                                       // waiting in buffer.get()
    | GotRef(job: JobId)                            // holds a reference, not yet claimed
    | Claimed(job: JobId)                           // claim committed, gate not re-checked
    | Releasing(job: JobId)                         // gate found closed after the claim
    | AtInnerGate(job: JobId, attempt: nat)
    | AwaitingSlot(job: JobId, attempt: nat)        // past the gate check, waiting for the semaphore
    | Navigating(job: JobId, attempt: nat)          // holds a fetch slot
    | Parsing(job: JobId, attempt: nat)
    | Failing(job: JobId, tries: nat, after: After) // recording the failure
    | Exited

  datatype Worker = Worker(pc: WorkerPc, processed: nat, navs: nat)

  datatype ProducerPc =
    | Idle                                          // top of the loop
    | WaitingForGate
    | Peeking
    | Batch(ids: seq<JobId>, next: nat, accepted: nat, present: nat)
    | PutBlocked(ids: seq<JobId>, next: nat, accepted: nat, present: nat)
    | Sleeping
    | Finished

  datatype Producer = Producer(pc: ProducerPc, stop: bool)

  // History: a URL becoming schedulable work, and a job of it becoming DONE.
  datatype Event =
    | Activated(u: UrlId, at: Time)
    | Completed(u: UrlId, at: Time)

  datatype State = State(
    db: Db, buffer: D.BufferState, gate: Gate.GateState, workers: seq<Worker>, producer: Producer,
    slots: int, now: Time, log: seq<Event>)

  datatype Fault = PageLoad | RateLimited(hasProbe: bool) | BrowserFault | Unexpected

  datatype Action =
    // a worker's steps
    | EngineUp(w: nat)
    | EngineFails(w: nat)
    | PassGate(w: nat)
    | Take(w: nat)
    | ClaimRow(w: nat, skipped: bool)
    | ClaimRaises(w: nat)
    | CheckGate(w: nat)
    | ReleaseRow(w: nat)
    | ReleaseRaises(w: nat)
    | PassInnerGate(w: nat)
    | BeginNavigation(w: nat)
    | EndNavigation(w: nat)
    | Succeeds(w: nat)
    | Faults(w: nat, fault: Fault)
    | RecordRow(w: nat, error: string)
    | RecordRaises(w: nat)
    // the producer's steps
    | CheckStop
    | ProducerPassesGate
    | Peek(ids: seq<JobId>)
    | PutNext
    | PutAgain
    | Wake
    | ProducerFails
    | RequestStop
    // the rest of the system
    | GateStep(g: Gate.Action)
    | RecoverJob(id: JobId)
    | ScheduleUrl(u: UrlId, conflict: Option<JobId>)
    | Tick(now: Time)
    | Reboot

  predicate IsWorkerStep(a: Action) {
    || a.EngineUp? || a.EngineFails? || a.PassGate? || a.Take? || a.ClaimRow? || a.ClaimRaises? || a.CheckGate?
    || a.ReleaseRow? || a.ReleaseRaises? || a.PassInnerGate? || a.BeginNavigation? || a.EndNavigation? || a.Succeeds?
    || a.Faults? || a.RecordRow? || a.RecordRaises?
  }

  // The job a worker holds: claimed by it and not yet given back or finished.
  function Held(pc: WorkerPc): Option<JobId> {
    match pc
    case Claimed(job) => Some(job)
    case Releasing(job) => Some(job)
    case AtInnerGate(job, _) => Some(job)
    case AwaitingSlot(job, _) => Some(job)
    case Navigating(job, _) => Some(job)
    case Parsing(job, _) => Some(job)
    case Failing(job, _, _) => Some(job)
    case _ => None
  }

  predicate SameJob(p: WorkerPc, q: WorkerPc) {
    Held(p).Some? && Held(p) == Held(q)
  }

  function Waiting(p: ProducerPc): set<JobId> {
    if p.PutBlocked? && p.next < |p.ids| then {p.ids[p.next]} else {}
  }

  function Pc(s: State, w: nat): WorkerPc
    requires w < |s.workers|
  {
    s.workers[w].pc
  }

  function Goto(s: State, w: nat, pc: WorkerPc): State
    requires w < |s.workers|
  {
    s.(workers := s.workers[w := s.workers[w].(pc := pc)])
  }

  function PendingIds(db: Db): set<JobId> {
    set id | id in db.queue && Claimable(db, id, PLAYER_INFO)
  }

  // ---------- Guards ----------

  ghost predicate Enabled(s: State, a: Action) {
    if IsWorkerStep(a) then a.w < |s.workers| && WorkerEnabled(s, a)
    else match a
      case CheckStop => s.producer.pc.Idle?
      case ProducerPassesGate => s.producer.pc.WaitingForGate? && s.gate.open
      case Peek(ids) =>
        s.producer.pc.Peeking?
        && exists limit: nat :: limit >= 1 && Pick.IsFirst(PendingIds(s.db), Pick.ById, limit, ids)
      case PutNext => s.producer.pc.Batch?
      case PutAgain => s.producer.pc.PutBlocked? && s.producer.pc.next < |s.producer.pc.ids|
      case Wake => s.producer.pc.Sleeping?
      case ProducerFails => s.producer.pc.WaitingForGate? || s.producer.pc.Peeking? || s.producer.pc.Sleeping?
      case GateStep(g) => Gate.Enabled(s.gate, g)
      case ScheduleUrl(u, conflict) => Eligible(s.db, u, s.now) && IsConflict(s.db, s.db.urls[u].url, conflict)
      case Tick(now) => s.now <= now
      case _ => true
  }

  predicate WorkerEnabled(s: State, a: Action)
    requires IsWorkerStep(a) && a.w < |s.workers|
  {
    var pc := Pc(s, a.w);
    match a
    case EngineUp(_) => pc.Restarting?
    case EngineFails(_) => pc.Restarting?
    case PassGate(_) => pc.AtGate? && s.gate.open
    case Take(_) => pc.Getting? && s.buffer.queue != []
    case ClaimRow(_, _) => pc.GotRef?
    case ClaimRaises(_) => pc.GotRef?
    case CheckGate(_) => pc.Claimed?
    case ReleaseRow(_) => pc.Releasing?
    case ReleaseRaises(_) => pc.Releasing?
    case PassInnerGate(_) => pc.AtInnerGate? && s.gate.open
    case BeginNavigation(_) => pc.AwaitingSlot? && s.slots > 0
    case EndNavigation(_) => pc.Navigating?
    case Succeeds(_) => pc.Parsing?
    case Faults(_, _) => pc.Navigating? || pc.Parsing?
    case _ => pc.Failing?
  }

  // ---------- Effects ----------

  // Where a fault in attempt `attempt` leads.
  function AfterFault(job: JobId, attempt: nat, fault: Fault): WorkerPc {
    match fault
    case BrowserFault => Failing(job, 0, NewEngine)
    case Unexpected => Failing(job, 0, NextJob)
    case _ => if attempt + 1 >= MAX_ATTEMPTS then Failing(job, 0, NewEngine) else AtInnerGate(job, attempt + 1)
  }

  function UrlIdOf(db: Db, id: JobId): UrlId {
    if id in db.queue && db.queue[id].fkUrl.Some? then db.queue[id].fkUrl.value else 0
  }

  function NextWorker(cfg: Config, s: State, a: Action): State
    requires IsWorkerStep(a) && a.w < |s.workers| && WorkerEnabled(s, a)
  {
    var w := a.w;
    var pc := Pc(s, w);
    match a
    case EngineUp(_) => Goto(s, w, AtGate).(gate := Gate.MarkReady(s.gate))
    case EngineFails(_) => s.(gate := Gate.Cancel(s.gate))
    case PassGate(_) => Goto(s, w, if D.IsExhausted(s.buffer) then Exited else Getting)
    case Take(_) =>
      Goto(s, w, if s.buffer.queue[0].Ref? then GotRef(s.buffer.queue[0].job) else Exited).(buffer := D.Get(s.buffer))
    case ClaimRow(_, skipped) =>
      if !skipped && Claimable(s.db, pc.job, PLAYER_INFO)
      then Goto(s, w, Claimed(pc.job)).(db := Claim(s.db, pc.job, PLAYER_INFO, s.now))
      else Goto(s, w, AtGate)
    case ClaimRaises(_) => Goto(s, w, Restarting)
    case CheckGate(_) => Goto(s, w, if s.gate.open then AtInnerGate(pc.job, 0) else Releasing(pc.job))
    case ReleaseRow(_) => Goto(s, w, AtGate).(db := Release(s.db, pc.job, PLAYER_INFO))
    case ReleaseRaises(_) => Goto(s, w, Restarting)
    case PassInnerGate(_) => Goto(s, w, AwaitingSlot(pc.job, pc.attempt))
    case BeginNavigation(_) =>
      s.(workers := s.workers[w := s.workers[w].(pc := Navigating(pc.job, pc.attempt), navs := s.workers[w].navs + 1)],
         slots := s.slots - 1)
    case EndNavigation(_) => Goto(s, w, Parsing(pc.job, pc.attempt)).(slots := s.slots + 1)
    case Succeeds(_) =>
      s.(workers := s.workers[w := s.workers[w].(pc := AtGate, processed := s.workers[w].processed + 1)],
         db := if pc.job in s.db.queue then Succeed(s.db, pc.job, s.now) else s.db,
         log := s.log + [Completed(UrlIdOf(s.db, pc.job), s.now)])
    case Faults(_, fault) =>
      Goto(s, w, AfterFault(pc.job, pc.attempt, fault)).(
        slots := if pc.Navigating? then s.slots + 1 else s.slots,
        gate := if fault.RateLimited? then Gate.Signal(s.gate, "rate_limit_429", fault.hasProbe) else s.gate)
    case RecordRow(_, error) =>
      var next := if pc.after.NextJob? && FailureOutcome(s.db, pc.job) != Rejected then AtGate else Restarting;
      Goto(s, w, next).(db := RecordFailure(s.db, pc.job, error, cfg.maxRetries, s.now))
    case RecordRaises(_) =>
      Goto(s, w, if pc.tries + 1 < RECORD_ATTEMPTS then Failing(pc.job, pc.tries + 1, pc.after) else Restarting)
  }

  // The producer's last step sends one sentinel a worker.
  function FinishProducer(s: State): State {
    s.(producer := s.producer.(pc := Finished), buffer := D.Close(s.buffer, |s.workers|))
  }

  function AfterPut(s: State, b: D.BufferState, outcome: D.PutOutcome): State
    requires s.producer.pc.Batch? || s.producer.pc.PutBlocked?
  {
    var p := s.producer.pc;
    var pc' := match outcome
      case Accepted => Batch(p.ids, p.next + 1, p.accepted + 1, p.present)
      case Blocked => PutBlocked(p.ids, p.next, p.accepted, p.present)
      case AlreadyPresent => Batch(p.ids, p.next + 1, p.accepted, p.present + 1)
      case Closed => Batch(p.ids, p.next + 1, p.accepted, p.present);
    s.(producer := s.producer.(pc := pc'), buffer := b)
  }

  function Next(cfg: Config, s: State, a: Action): State
    requires Enabled(s, a)
  {
    if IsWorkerStep(a) then NextWorker(cfg, s, a)
    else match a
      case CheckStop =>
        if s.producer.stop then FinishProducer(s) else s.(producer := s.producer.(pc := WaitingForGate))
      case ProducerPassesGate => s.(producer := s.producer.(pc := Peeking))
      case Peek(ids) =>
        if ids != [] then s.(producer := s.producer.(pc := Batch(ids, 0, 0, 0)))
        else if s.buffer.queue == [] then FinishProducer(s)
        else s.(producer := s.producer.(pc := Sleeping))
      case PutNext =>
        var p := s.producer.pc;
        if p.next >= |p.ids| || s.producer.stop then
          s.(producer := s.producer.(pc := if p.accepted == 0 && !s.producer.stop then Sleeping else Idle))
        else
          AfterPut(s, D.PutBegin(s.buffer, p.ids[p.next]), D.PutBeginOutcome(s.buffer, p.ids[p.next]))
      case PutAgain =>
        var p := s.producer.pc;
        AfterPut(s, D.PutResume(s.buffer, p.ids[p.next]), D.PutResumeOutcome(s.buffer, p.ids[p.next]))
      case Wake => s.(producer := s.producer.(pc := Idle))
      case ProducerFails => FinishProducer(s)
      case RequestStop => s.(producer := s.producer.(stop := true), buffer := D.Abort(s.buffer))
      case GateStep(g) => s.(gate := Gate.Next(cfg.gate, s.gate, g))
      case RecoverJob(id) => s.(db := QueueOps.RecoverJob(s.db, id, s.now))
      case ScheduleUrl(u, conflict) =>
        s.(db := Enqueue(s.db, u, conflict), log := s.log + [Activated(u, s.now)])
      case Tick(now) => s.(now := now)
      case Reboot => Booted(RecoverAllStale(s.db, PLAYER_INFO), |s.workers|, s.buffer.maxsize, s.now, s.log)
      case _ => s
  }

  function Booted(db: Db, n: nat, maxsize: int, now: Time, log: seq<Event>): State {
    State(db, D.EmptyBuffer(maxsize), Gate.INIT, seq(n, _ => Worker(Restarting, 0, 0)), Producer(Idle, false),
          FETCH_SLOTS, now, log)
  }

  // ---------- Runs ----------

  ghost predicate ValidRun(cfg: Config, s: State, acts: seq<Action>)
    decreases |acts|
  {
    acts != [] ==> Enabled(s, acts[0]) && ValidRun(cfg, Next(cfg, s, acts[0]), acts[1..])
  }

  ghost function Run(cfg: Config, s: State, acts: seq<Action>): State
    requires ValidRun(cfg, s, acts)
    decreases |acts|
  {
    if acts == [] then s else Run(cfg, Next(cfg, s, acts[0]), acts[1..])
  }

  ghost predicate NoReboot(acts: seq<Action>) {
    forall i :: 0 <= i < |acts| ==> !acts[i].Reboot?
  }

  // ---------- Every step is at most one committed transaction ----------

  function DbOp(cfg: Config, s: State, a: Action): Option<Lifecycle.Op>
    requires IsWorkerStep(a) ==> a.w < |s.workers| && WorkerEnabled(s, a)
  {
    match a
    case ClaimRow(w, skipped) => if skipped then None else Some(Lifecycle.ClaimJob(Pc(s, w).job, s.now))
    case ReleaseRow(w) => Some(Lifecycle.ReleaseToPending(Pc(s, w).job))
    case Succeeds(w) => Some(Lifecycle.Success(Pc(s, w).job, s.now))
    case RecordRow(w, error) => Some(Lifecycle.RecordJobFailure(Pc(s, w).job, error, s.now))
    case RecoverJob(id) => Some(Lifecycle.RecoverFailedJob(id, s.now))
    case ScheduleUrl(u, conflict) => Some(Lifecycle.Schedule(u, conflict))
    case Reboot => Some(Lifecycle.RecoverStaleRows)
    case _ => None
  }

  lemma WorkerStepIsTransaction(cfg: Config, s: State, a: Action)
    requires IsWorkerStep(a) && a.w < |s.workers| && WorkerEnabled(s, a)
    ensures var op := DbOp(cfg, s, a);
      NextWorker(cfg, s, a).db == if op.Some? then Lifecycle.Apply(s.db, op.value, cfg.maxRetries) else s.db
  {
  }

  lemma StepIsTransaction(cfg: Config, s: State, a: Action)
    requires Enabled(s, a)
    ensures var op := DbOp(cfg, s, a);
      Next(cfg, s, a).db == if op.Some? then Lifecycle.Apply(s.db, op.value, cfg.maxRetries) else s.db
  {
    if IsWorkerStep(a) {
      WorkerStepIsTransaction(cfg, s, a);
    } else if a.ScheduleUrl? {
      assert a.conflict.Some? ==> Conflicts(s.db, a.conflict.value, s.db.urls[a.u].url);
    }
  }

  // ---------- Ownership ----------

  ghost predicate Owned(s: State) {
    && (forall w :: 0 <= w < |s.workers| && Held(Pc(s, w)).Some? ==>
          IsPlayerJob(s.db, Held(Pc(s, w)).value) && s.db.queue[Held(Pc(s, w)).value].status == InProgress)
    && (forall v, w :: 0 <= v < |s.workers| && 0 <= w < |s.workers| && SameJob(Pc(s, v), Pc(s, w)) ==> v == w)
  }

  ghost predicate Holds(s: State, id: JobId) {
    exists w :: 0 <= w < |s.workers| && Held(Pc(s, w)) == Some(id)
  }

  ghost predicate TablesOk(cfg: Config, s: State) {
    cfg.maxRetries >= 1 && Lifecycle.PairInv(s.db, cfg.maxRetries) && Lifecycle.AllStampsOk(s.db) && Owned(s)
  }

  // A transaction other than stale recovery leaves every IN_PROGRESS row but its own alone.
  lemma OthersUntouched(db: Db, op: Lifecycle.Op, maxRetries: int, id: JobId)
    requires Lifecycle.Transaction(db, op) && !op.RecoverStaleRows? && !op.RecoverLockedBefore? && !op.RecoverDomain?
    requires IsPlayerJob(db, id) && db.queue[id].status == InProgress && id < db.nextId
    requires (op.ReleaseToPending? || op.Success? || op.RecordJobFailure?) ==> op.id != id
    ensures var db' := Lifecycle.Apply(db, op, maxRetries); id in db'.queue && db'.queue[id] == db.queue[id]
  {
  }

  lemma HeldRowsSurvive(cfg: Config, s: State, a: Action, v: nat)
    requires TablesOk(cfg, s) && Enabled(s, a) && !a.Reboot?
    requires v < |s.workers| && Held(Pc(s, v)).Some? && (IsWorkerStep(a) ==> a.w != v)
    ensures var s' := Next(cfg, s, a); var id := Held(Pc(s, v)).value;
      IsPlayerJob(s'.db, id) && s'.db.queue[id].status == InProgress
  {
    StepIsTransaction(cfg, s, a);
    var op := DbOp(cfg, s, a);
    if op.Some? {
      OthersUntouched(s.db, op.value, cfg.maxRetries, Held(Pc(s, v)).value);
    }
  }

  // A worker's own step: the job it holds afterwards it held before, or has just claimed.
  lemma OwnStep(cfg: Config, s: State, a: Action)
    requires TablesOk(cfg, s) && Enabled(s, a) && IsWorkerStep(a)
    ensures var s' := Next(cfg, s, a); var held := Held(Pc(s', a.w));
      held.Some? ==>
        && IsPlayerJob(s'.db, held.value) && s'.db.queue[held.value].status == InProgress
        && (held == Held(Pc(s, a.w)) || s.db.queue[held.value].status == Pending)
  {
    if a.ClaimRow? {
      OwnClaim(cfg, s, a);
    } else {
      OwnKept(cfg, s, a);
    }
  }

  lemma OwnClaim(cfg: Config, s: State, a: Action)
    requires TablesOk(cfg, s) && Enabled(s, a) && a.ClaimRow?
    ensures var s' := Next(cfg, s, a); var held := Held(Pc(s', a.w));
      held.Some? ==>
        && IsPlayerJob(s'.db, held.value) && s'.db.queue[held.value].status == InProgress
        && s.db.queue[held.value].status == Pending
  {
  }

  // Any step but a claim leaves a worker with the job it had, or with none; and a job it keeps is not written.
  lemma OwnKept(cfg: Config, s: State, a: Action)
    requires Enabled(s, a) && IsWorkerStep(a) && !a.ClaimRow?
    ensures var s' := Next(cfg, s, a); var held := Held(Pc(s', a.w));
      held.Some? ==> held == Held(Pc(s, a.w)) && s'.db == s.db
  {
  }

  // What worker v holds in s' is IN_PROGRESS, and it held it in s already or is `actor` and nobody did.
  ghost predicate HeldFrom(s: State, s': State, actor: Option<nat>, v: nat)
    requires v < |s.workers| == |s'.workers|
  {
    var held := Held(Pc(s', v));
    held.Some? ==>
      && IsPlayerJob(s'.db, held.value) && s'.db.queue[held.value].status == InProgress
      && (held == Held(Pc(s, v)) || (actor == Some(v) && !Holds(s, held.value)))
  }

  function Actor(a: Action): Option<nat> {
    if IsWorkerStep(a) then Some(a.w) else None
  }

  lemma HeldTrace(cfg: Config, s: State, a: Action, v: nat)
    requires TablesOk(cfg, s) && Enabled(s, a) && !a.Reboot? && v < |s.workers|
    ensures |Next(cfg, s, a).workers| == |s.workers| && HeldFrom(s, Next(cfg, s, a), Actor(a), v)
  {
    if Held(Pc(Next(cfg, s, a), v)).Some? {
      if IsWorkerStep(a) && a.w == v {
        OwnStep(cfg, s, a);
      } else {
        HeldRowsSurvive(cfg, s, a, v);
      }
    }
  }

  // Ownership carries over when at most one worker, `actor`, picks up a job, and one nobody held.
  lemma OwnedFrom(s: State, s': State, actor: Option<nat>)
    requires Owned(s) && |s'.workers| == |s.workers|
    requires forall v: nat :: v < |s'.workers| ==> HeldFrom(s, s', actor, v)
    ensures Owned(s')
  {
    forall v, w | 0 <= v < |s'.workers| && 0 <= w < |s'.workers| && SameJob(Pc(s', v), Pc(s', w)) ensures v == w {
      assert HeldFrom(s, s', actor, v) && HeldFrom(s, s', actor, w);
      assert Held(Pc(s', v)) == Held(Pc(s, v)) && Held(Pc(s', w)) == Held(Pc(s, w)) ==> SameJob(Pc(s, v), Pc(s, w));
    }
    forall w: nat | w < |s'.workers| && Held(Pc(s', w)).Some?
      ensures var id := Held(Pc(s', w)).value; IsPlayerJob(s'.db, id) && s'.db.queue[id].status == InProgress
    {
      assert HeldFrom(s, s', actor, w);
    }
  }

  lemma SameWorkers(cfg: Config, s: State, a: Action)
    requires Enabled(s, a)
    ensures |Next(cfg, s, a).workers| == |s.workers|
  {
  }

  lemma OwnershipKept(cfg: Config, s: State, a: Action)
    requires TablesOk(cfg, s) && Enabled(s, a)
    ensures Owned(Next(cfg, s, a))
  {
    if !a.Reboot? {
      SameWorkers(cfg, s, a);
      forall v: nat | v < |s.workers| ensures HeldFrom(s, Next(cfg, s, a), Actor(a), v) {
        HeldTrace(cfg, s, a, v);
      }
      OwnedFrom(s, Next(cfg, s, a), Actor(a));
    }
  }

  lemma TablesKept(cfg: Config, s: State, a: Action)
    requires TablesOk(cfg, s) && Enabled(s, a)
    ensures TablesOk(cfg, Next(cfg, s, a))
  {
    OwnershipKept(cfg, s, a);
    StepIsTransaction(cfg, s, a);
    var op := DbOp(cfg, s, a);
    if op.Some? {
      assert a.Succeeds? || a.RecordRow? ==> Held(Pc(s, a.w)).Some?;
      Lifecycle.PairKept(s.db, op.value, cfg.maxRetries);
      Lifecycle.StampsKept(s.db, op.value, cfg.maxRetries);
    }
  }

  lemma {:induction false} TablesAlways(cfg: Config, s: State, acts: seq<Action>)
    requires TablesOk(cfg, s) && ValidRun(cfg, s, acts)
    ensures TablesOk(cfg, Run(cfg, s, acts))
    decreases |acts|
  {
    if acts != [] {
      TablesKept(cfg, s, acts[0]);
      TablesAlways(cfg, Next(cfg, s, acts[0]), acts[1..]);
    }
  }

  // However references are duplicated, stale or raced for, no two workers ever hold the same job
  // and a held job is IN_PROGRESS and locked.
  lemma SingleOwner(cfg: Config, s: State, acts: seq<Action>, v: nat, w: nat)
    requires TablesOk(cfg, s) && ValidRun(cfg, s, acts)
    requires v < |Run(cfg, s, acts).workers| && w < |Run(cfg, s, acts).workers|
    requires Held(Pc(Run(cfg, s, acts), v)).Some?
    ensures var s' := Run(cfg, s, acts); var id := Held(Pc(s', v)).value;
      && id in s'.db.queue && s'.db.queue[id].status == InProgress && s'.db.queue[id].lockedAt.Some?
      && (Held(Pc(s', w)) == Some(id) ==> v == w)
  {
    TablesAlways(cfg, s, acts);
  }
}
