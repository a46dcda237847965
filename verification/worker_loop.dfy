/**
 What a worker of buffered mode does with a job between claiming it and letting it go, told from the
 gate, the tables and the navigations begun, over whole runs.
 */
module WorkerLoop {
  import opened Tables
  import opened QueueOps
  import opened BufferedRun
  import Lifecycle
  import Transitions
  import Gate

  // ---------- What can be seen of a worker since its last claim ----------

  // `check` is whether the gate was open at its first step after the claim, `navs` and `soft` count
  // the navigations it began and the page-load and rate-limit faults it met, `hard` is the fault of
  // another kind that it met, if any.
  datatype Trace = Trace(check: Option<bool>, navs: nat, soft: nat, hard: Option<Fault>)

  const FRESH := Trace(None, 0, 0, None)

  predicate StepOf(a: Action, w: nat) {
    IsWorkerStep(a) && a.w == w
  }

  predicate RowClaimed(db: Db, db': Db, id: JobId) {
    && id in db.queue && id in db'.queue
    && db.queue[id].status == Pending && db'.queue[id].status == InProgress
  }

  predicate RowReleased(db: Db, db': Db, id: JobId) {
    && id in db.queue && id in db'.queue
    && db.queue[id].status == InProgress && db'.queue[id].status == Pending
    && db'.queue[id].retryCount == db.queue[id].retryCount
  }

  predicate RowFailed(db: Db, db': Db, id: JobId) {
    id in db.queue && id in db'.queue && db'.queue[id].retryCount == db.queue[id].retryCount + 1
  }

  predicate RowDone(db: Db, db': Db, id: JobId) {
    id in db.queue && id in db'.queue && db.queue[id].status != Done && db'.queue[id].status == Done
  }

  ghost predicate Claims(cfg: Config, s: State, a: Action, w: nat)
    requires Enabled(s, a)
  {
    StepOf(a, w) && exists id :: RowClaimed(s.db, Next(cfg, s, a).db, id)
  }

  ghost function Observe(cfg: Config, s: State, a: Action, w: nat, x: Trace): Trace
    requires Enabled(s, a) && w < |s.workers|
  {
    if !StepOf(a, w) then x
    else if Claims(cfg, s, a, w) then FRESH
    else
      var s' := Next(cfg, s, a);
      Trace(if x.check.None? then Some(s.gate.open) else x.check,
            x.navs + (if w < |s'.workers| && s'.workers[w].navs > s.workers[w].navs then 1 else 0),
            x.soft + (if a.Faults? && (a.fault.PageLoad? || a.fault.RateLimited?) then 1 else 0),
            if a.Faults? && !a.fault.PageLoad? && !a.fault.RateLimited? then Some(a.fault) else x.hard)
  }

  // The trace of worker `w` after a run that starts with trace `x`.
  ghost function Trail(cfg: Config, s: State, acts: seq<Action>, w: nat, x: Trace): Trace
    requires ValidRun(cfg, s, acts) && w < |s.workers|
    decreases |acts|
  {
    if acts == [] then x
    else
      SameWorkers(cfg, s, acts[0]);
      Trail(cfg, Next(cfg, s, acts[0]), acts[1..], w, Observe(cfg, s, acts[0], w, x))
  }

  // ---------- The trace and the place in the loop ----------

  predicate TraceOk(pc: WorkerPc, x: Trace) {
    match pc
    case Claimed(_) => x == FRESH
    case Releasing(_) => x == Trace(Some(false), 0, 0, None)
    case AtInnerGate(_, n) => n < 3 && x == Trace(Some(true), n, n, None)
    case AwaitingSlot(_, n) => n < 3 && x == Trace(Some(true), n, n, None)
    case Navigating(_, n) => n < 3 && x == Trace(Some(true), n + 1, n, None)
    case Parsing(_, n) => n < 3 && x == Trace(Some(true), n + 1, n, None)
    case Failing(_, tries, after) =>
      && tries < 3 && x.check == Some(true) && 1 <= x.navs <= 3
      && (if x.hard.Some? then x.soft < 3 && x.navs == x.soft + 1 else x.soft == 3 && x.navs == 3)
      && (after == NextJob <==> x.hard == Some(Unexpected))
    case _ => true
  }

  lemma ClaimIsClaimRow(cfg: Config, s: State, a: Action, w: nat)
    requires TablesOk(cfg, s) && Enabled(s, a) && StepOf(a, w)
    ensures Claims(cfg, s, a, w) <==> a.ClaimRow? && !a.skipped && Claimable(s.db, Pc(s, w).job, PLAYER_INFO)
    ensures Claims(cfg, s, a, w) ==>
      var s' := Next(cfg, s, a);
      s'.workers[w].pc == Claimed(Pc(s, w).job) && RowClaimed(s.db, s'.db, Pc(s, w).job)
  {
    var s' := Next(cfg, s, a);
    if a.ClaimRow? && !a.skipped && Claimable(s.db, Pc(s, w).job, PLAYER_INFO) {
      assert RowClaimed(s.db, s'.db, Pc(s, w).job);
    } else {
      forall id ensures !RowClaimed(s.db, s'.db, id) {
        NoOtherClaim(cfg, s, a, id);
      }
    }
  }

  lemma NoOtherClaim(cfg: Config, s: State, a: Action, id: JobId)
    requires TablesOk(cfg, s) && Enabled(s, a) && IsWorkerStep(a)
    requires !(a.ClaimRow? && !a.skipped && Claimable(s.db, Pc(s, a.w).job, PLAYER_INFO))
    ensures !RowClaimed(s.db, Next(cfg, s, a).db, id)
  {
    StepIsTransaction(cfg, s, a);
    var op := DbOp(cfg, s, a);
    if op.Some? && id in s.db.queue {
      assert id < s.db.nextId;
      Transitions.QueueTable(s.db, op.value, cfg.maxRetries, id);
    }
  }

  lemma OthersStay(cfg: Config, s: State, a: Action, w: nat)
    requires Enabled(s, a) && w < |s.workers| && !StepOf(a, w) && !a.Reboot?
    ensures w < |Next(cfg, s, a).workers| && Next(cfg, s, a).workers[w] == s.workers[w]
  {
  }

  lemma OwnTrace(cfg: Config, s: State, a: Action, w: nat, x: Trace)
    requires TablesOk(cfg, s) && Enabled(s, a) && StepOf(a, w) && TraceOk(Pc(s, w), x)
    ensures |Next(cfg, s, a).workers| == |s.workers|
    ensures TraceOk(Pc(Next(cfg, s, a), w), Observe(cfg, s, a, w, x))
  {
    ClaimIsClaimRow(cfg, s, a, w);
    if a.ClaimRow? {
      SameWorkers(cfg, s, a);
    } else if a.Faults? {
      FaultTrace(cfg, s, a, w, x);
    } else {
      QuietTrace(cfg, s, a, w, x);
    }
  }

  lemma FaultTrace(cfg: Config, s: State, a: Action, w: nat, x: Trace)
    requires Enabled(s, a) && StepOf(a, w) && TraceOk(Pc(s, w), x) && a.Faults? && !Claims(cfg, s, a, w)
    ensures |Next(cfg, s, a).workers| == |s.workers|
    ensures TraceOk(Pc(Next(cfg, s, a), w), Observe(cfg, s, a, w, x))
  {
  }

  lemma QuietTrace(cfg: Config, s: State, a: Action, w: nat, x: Trace)
    requires Enabled(s, a) && StepOf(a, w) && TraceOk(Pc(s, w), x) && !a.Faults? && !a.ClaimRow?
    requires !Claims(cfg, s, a, w)
    ensures |Next(cfg, s, a).workers| == |s.workers|
    ensures TraceOk(Pc(Next(cfg, s, a), w), Observe(cfg, s, a, w, x))
  {
  }

  lemma TraceStep(cfg: Config, s: State, a: Action, w: nat, x: Trace)
    requires TablesOk(cfg, s) && Enabled(s, a) && w < |s.workers| && TraceOk(Pc(s, w), x)
    ensures |Next(cfg, s, a).workers| == |s.workers|
    ensures TraceOk(Pc(Next(cfg, s, a), w), Observe(cfg, s, a, w, x))
  {
    SameWorkers(cfg, s, a);
    if StepOf(a, w) {
      OwnTrace(cfg, s, a, w, x);
    } else if !a.Reboot? {
      OthersStay(cfg, s, a, w);
    }
  }

  lemma {:induction false} TraceAlways(cfg: Config, s: State, acts: seq<Action>, w: nat, x: Trace)
    requires TablesOk(cfg, s) && ValidRun(cfg, s, acts) && w < |s.workers| && TraceOk(Pc(s, w), x)
    ensures |Run(cfg, s, acts).workers| == |s.workers| && TablesOk(cfg, Run(cfg, s, acts))
    ensures TraceOk(Pc(Run(cfg, s, acts), w), Trail(cfg, s, acts, w, x))
    decreases |acts|
  {
    if acts != [] {
      TablesKept(cfg, s, acts[0]);
      TraceStep(cfg, s, acts[0], w, x);
      TraceAlways(cfg, Next(cfg, s, acts[0]), acts[1..], w, Observe(cfg, s, acts[0], w, x));
    }
  }

  // ---------- What follows for a worker that starts without a job ----------

  ghost predicate After(cfg: Config, s: State, acts: seq<Action>, w: nat, s': State, x: Trace) {
    && TablesOk(cfg, s) && ValidRun(cfg, s, acts) && w < |s.workers| && Held(Pc(s, w)).None?
    && s' == Run(cfg, s, acts) && x == Trail(cfg, s, acts, w, FRESH)
  }

  lemma AfterIsOk(cfg: Config, s: State, acts: seq<Action>, w: nat, s': State, x: Trace)
    requires After(cfg, s, acts, w, s', x)
    ensures TablesOk(cfg, s') && w < |s'.workers| && TraceOk(Pc(s', w), x)
  {
    TraceAlways(cfg, s, acts, w, FRESH);
  }

  // The gate decides once, at the first step after the claim. A navigation begins only if it was open
  // then, and no more than three do for one claim.
  lemma NavigatesOnlyIfOpen(cfg: Config, s: State, acts: seq<Action>, w: nat, s': State, x: Trace, a: Action)
    requires After(cfg, s, acts, w, s', x) && Enabled(s', a) && !a.Reboot?
    ensures w < |s'.workers| && w < |Next(cfg, s', a).workers|
    ensures Next(cfg, s', a).workers[w].navs > s'.workers[w].navs ==>
      x.check == Some(true) && x.navs < 3 && Held(Pc(s', w)).Some?
  {
    AfterIsOk(cfg, s, acts, w, s', x);
    SameWorkers(cfg, s', a);
    if Next(cfg, s', a).workers[w].navs > s'.workers[w].navs {
      OnlyNavigationsCount(cfg, s', a, w);
    }
  }

  lemma OnlyNavigationsCount(cfg: Config, s: State, a: Action, w: nat)
    requires Enabled(s, a) && !a.Reboot? && w < |s.workers| && w < |Next(cfg, s, a).workers|
    requires Next(cfg, s, a).workers[w].navs > s.workers[w].navs
    ensures StepOf(a, w) && a.BeginNavigation? && Pc(s, w).AwaitingSlot?
  {
  }

  // A worker gives a job back, with its retry count as it was, only if the gate was closed then, and it
  // has not navigated since the claim; the job is the one it holds.
  lemma ReleasesOnlyIfClosed(cfg: Config, s: State, acts: seq<Action>, w: nat, s': State, x: Trace, a: Action,
                             id: JobId)
    requires After(cfg, s, acts, w, s', x) && Enabled(s', a) && StepOf(a, w)
    requires RowReleased(s'.db, Next(cfg, s', a).db, id)
    ensures x.check == Some(false) && x.navs == 0 && w < |s'.workers| && Held(Pc(s', w)) == Some(id)
  {
    AfterIsOk(cfg, s, acts, w, s', x);
    StepIsTransaction(cfg, s', a);
    var op := DbOp(cfg, s', a);
    assert id < s'.db.nextId;
    if op.Some? {
      Transitions.QueueTable(s'.db, op.value, cfg.maxRetries, id);
    }
  }

  // How a job leaves the worker that holds it: only by a step of that worker, which completes it, records
  // one more failure, gives it back, or leaves the tables alone because the database raised or refused.
  datatype Leaving = Completes | Fails | GivesBack | Raises

  ghost predicate Leaves(s: State, s': State, w: nat, id: JobId, how: Leaving)
    requires w < |s.workers| && w < |s'.workers|
  {
    match how
    case Completes => RowDone(s.db, s'.db, id) && s'.workers[w].processed == s.workers[w].processed + 1
    case Fails => RowFailed(s.db, s'.db, id) && s'.workers[w].processed == s.workers[w].processed
    case GivesBack => RowReleased(s.db, s'.db, id) && s'.workers[w].processed == s.workers[w].processed
    case Raises => s'.db == s.db && Pc(s', w).Restarting? && s'.workers[w].processed == s.workers[w].processed
  }

  // Which of these it is, is settled by what the worker has seen since its claim. If the gate was open at
  // its first step, the job is not given back; if it was closed, the job is given back or lost to a raise,
  // before any navigation. A completion takes one navigation more than there were soft faults; a failure
  // takes three soft faults or a hard one.
  predicate Accounts(x: Trace, how: Leaving) {
    match how
    case Completes => x.check == Some(true) && x.hard.None? && x.soft < 3 && x.navs == x.soft + 1
    case Fails => x.check == Some(true) && (x.hard.Some? || x.soft == 3)
    case GivesBack => x.check == Some(false) && x.navs == 0
    case Raises => x.check.Some? && (x.check == Some(false) ==> x.navs == 0)
  }

  lemma HowAJobLeaves(cfg: Config, s: State, acts: seq<Action>, w: nat, s': State, x: Trace, a: Action, id: JobId)
    returns (how: Leaving)
    requires After(cfg, s, acts, w, s', x) && Enabled(s', a) && !a.Reboot?
    requires w < |s'.workers| && Held(Pc(s', w)) == Some(id)
    requires w < |Next(cfg, s', a).workers| && Held(Pc(Next(cfg, s', a), w)) != Some(id)
    ensures StepOf(a, w) && Leaves(s', Next(cfg, s', a), w, id, how) && Accounts(x, how)
    ensures how.Raises? ==> a.ReleaseRaises? || a.RecordRaises? || a.RecordRow?
  {
    AfterIsOk(cfg, s, acts, w, s', x);
    if !StepOf(a, w) {
      OthersStay(cfg, s', a, w);
    }
    how := LeavingStep(cfg, s', a, id, x);
  }

  lemma LeavingStep(cfg: Config, s: State, a: Action, id: JobId, x: Trace) returns (how: Leaving)
    requires TablesOk(cfg, s) && Enabled(s, a) && IsWorkerStep(a) && TraceOk(Pc(s, a.w), x)
    requires Held(Pc(s, a.w)) == Some(id) && |Next(cfg, s, a).workers| == |s.workers|
    requires Held(Pc(Next(cfg, s, a), a.w)) != Some(id)
    ensures Leaves(s, Next(cfg, s, a), a.w, id, how) && Accounts(x, how)
    ensures how.Raises? ==> a.ReleaseRaises? || a.RecordRaises? || a.RecordRow?
  {
    assert IsPlayerJob(s.db, id) && s.db.queue[id].status == InProgress;
    if a.Succeeds? {
      how := Completes;
    } else if a.ReleaseRow? {
      how := GivesBack;
    } else if a.RecordRow? && FailureOutcome(s.db, id) == Applied {
      how := Fails;
    } else {
      how := Raises;
    }
  }

  // After a recorded failure the worker goes on with its engine if the fault was unexpected, and takes a
  // new one otherwise.
  lemma EngineAfterFailure(cfg: Config, s: State, acts: seq<Action>, w: nat, s': State, x: Trace, a: Action, id: JobId)
    requires After(cfg, s, acts, w, s', x) && Enabled(s', a) && StepOf(a, w)
    requires RowFailed(s'.db, Next(cfg, s', a).db, id)
    ensures w < |Next(cfg, s', a).workers|
    ensures if x.hard == Some(Unexpected) then Pc(Next(cfg, s', a), w).AtGate? else Pc(Next(cfg, s', a), w).Restarting?
  {
    AfterIsOk(cfg, s, acts, w, s', x);
    SameWorkers(cfg, s', a);
    StepIsTransaction(cfg, s', a);
    var op := DbOp(cfg, s', a);
    assert id < s'.db.nextId;
    if op.Some? {
      Transitions.QueueTable(s'.db, op.value, cfg.maxRetries, id);
    }
  }

  // A claim is held by the worker that made it, and by nobody before.
  lemma ClaimedIsHeld(cfg: Config, s: State, a: Action, id: JobId)
    requires TablesOk(cfg, s) && Enabled(s, a) && !a.Reboot? && RowClaimed(s.db, Next(cfg, s, a).db, id)
    ensures a.ClaimRow? && a.w < |Next(cfg, s, a).workers|
    ensures Held(Pc(Next(cfg, s, a), a.w)) == Some(id) && !Holds(s, id)
  {
    StepIsTransaction(cfg, s, a);
    var op := DbOp(cfg, s, a);
    assert id < s.db.nextId;
    if op.Some? {
      Transitions.QueueTable(s.db, op.value, cfg.maxRetries, id);
    }
  }

  // ---------- What can happen to a worker where ----------

  // At either gate it waits for the gate to be open, in `get` for an item, and for a fetch slot before it
  // navigates; any fault can meet it while it navigates or parses, and any call to the database can raise.
  lemma WorkerChoices(s: State, a: Action)
    requires IsWorkerStep(a) && a.w < |s.workers|
    ensures Enabled(s, a) <==>
      match Pc(s, a.w)
      case Restarting => a.EngineUp? || a.EngineFails?
      case AtGate => a.PassGate? && s.gate.open
      case Getting => a.Take? && s.buffer.queue != []
      case GotRef(_) => a.ClaimRow? || a.ClaimRaises?
      case Claimed(_) => a.CheckGate?
      case Releasing(_) => a.ReleaseRow? || a.ReleaseRaises?
      case AtInnerGate(_, _) => a.PassInnerGate? && s.gate.open
      case AwaitingSlot(_, _) => a.BeginNavigation? && s.slots > 0
      case Navigating(_, _) => a.EndNavigation? || a.Faults?
      case Parsing(_, _) => a.Succeeds? || a.Faults?
      case Failing(_, _, _) => a.RecordRow? || a.RecordRaises?
      case Exited => false
  {
  }

  // Where a worker without a job, or with one it has not checked yet, goes next. A worker whose engine has
  // come up, and one whose claim found the row taken, starts over at the gate; a raise costs the engine.
  lemma WithoutAJob(cfg: Config, s: State, a: Action)
    requires TablesOk(cfg, s) && Enabled(s, a) && IsWorkerStep(a)
    ensures var pc, pc' := Pc(s, a.w), Pc(Next(cfg, s, a), a.w);
      && (a.EngineUp? ==> pc'.AtGate?)
      && (a.EngineFails? || a.ClaimRaises? || a.ReleaseRaises? ==> pc'.Restarting?)
      && (a.ClaimRow? && !Claims(cfg, s, a, a.w) ==> pc'.AtGate?)
      && (a.ReleaseRow? || a.Succeeds? ==> pc'.AtGate?)
      && (a.ClaimRow? ==> (Claims(cfg, s, a, a.w) <==>
            && !a.skipped && pc.job in s.db.queue && s.db.queue[pc.job].status.Pending?
            && s.db.queue[pc.job].jobType == "player_info"))
  {
    ClaimIsClaimRow(cfg, s, a, a.w);
  }

  // While it holds a job it takes the loop's steps in order, and a fault or a raise before the last try
  // keeps the job.
  lemma WithAJob(cfg: Config, s: State, a: Action, id: JobId)
    requires Enabled(s, a) && IsWorkerStep(a) && Held(Pc(s, a.w)) == Some(id)
    ensures var pc, pc' := Pc(s, a.w), Pc(Next(cfg, s, a), a.w);
      && (a.CheckGate? ==> pc' == if s.gate.open then AtInnerGate(id, 0) else Releasing(id))
      && (a.PassInnerGate? ==> pc' == AwaitingSlot(id, pc.attempt))
      && (a.BeginNavigation? ==> pc' == Navigating(id, pc.attempt))
      && (a.EndNavigation? ==> pc' == Parsing(id, pc.attempt))
      && (a.Faults? && (a.fault.PageLoad? || a.fault.RateLimited?) && pc.attempt + 1 < 3 ==>
            pc' == AtInnerGate(id, pc.attempt + 1))
      && (a.Faults? && !((a.fault.PageLoad? || a.fault.RateLimited?) && pc.attempt + 1 < 3) ==>
            pc'.Failing? && pc'.job == id && pc'.tries == 0)
      && (a.RecordRaises? && pc.tries + 1 < 3 ==> pc' == Failing(id, pc.tries + 1, pc.after))
      && (a.RecordRaises? && pc.tries + 1 >= 3 ==> pc'.Restarting?)
  {
  }

  // A step of a worker changes its own entry and, of the rest, the queue's head, a slot, the gate, its
  // job's rows and the history; it leaves the producer and the clock alone.
  lemma OthersUnmoved(cfg: Config, s: State, a: Action)
    requires Enabled(s, a) && IsWorkerStep(a)
    ensures var s' := Next(cfg, s, a);
      && s'.producer == s.producer && s'.now == s.now && |s'.workers| == |s.workers|
      && (forall w :: 0 <= w < |s.workers| && w != a.w ==> s'.workers[w] == s.workers[w])
      && s'.workers[a.w].navs == s.workers[a.w].navs + (if a.BeginNavigation? then 1 else 0)
  {
  }

  // ---------- Workers and the gate ----------

  // A worker touches the gate in three ways only: a rate limit closes it, an engine that comes up opens
  // it, and one that fails to start asks its recovery to cancel.
  lemma WorkersOnTheGate(cfg: Config, s: State, a: Action)
    requires Enabled(s, a) && IsWorkerStep(a)
    ensures var g' := Next(cfg, s, a).gate;
      && (a.EngineUp? ==> g'.open)
      && (a.EngineFails? ==> g'.open == s.gate.open)
      && (a.Faults? && a.fault.RateLimited? ==> !g'.open)
      && (!a.EngineUp? && !a.EngineFails? && !(a.Faults? && a.fault.RateLimited?) ==> g' == s.gate)
  {
  }

  // Whatever the rest of the system does, the gate moves by its own steps.
  lemma StepIsGateAction(cfg: Config, s: State, a: Action) returns (acts: seq<Gate.Action>)
    requires Enabled(s, a) && !a.Reboot?
    ensures |acts| <= 1 && (acts != [] ==> Gate.Enabled(s.gate, acts[0]))
    ensures Next(cfg, s, a).gate == if acts == [] then s.gate else Gate.Next(cfg.gate, s.gate, acts[0])
    ensures IsWorkerStep(a) ==> acts == OnGate(a)
  {
    if IsWorkerStep(a) {
      acts := OnGate(a);
      WorkerGateAction(cfg, s, a);
    } else {
      acts := if a.GateStep? then [a.g] else [];
    }
  }

  // What a worker's step asks of the gate.
  function OnGate(a: Action): seq<Gate.Action> {
    if a.EngineUp? then [Gate.EngineReady]
    else if a.EngineFails? then [Gate.CancelRecovery]
    else if a.Faults? && a.fault.RateLimited? then [Gate.SignalRateLimit("rate_limit_429", a.fault.hasProbe)]
    else []
  }

  lemma WorkerGateAction(cfg: Config, s: State, a: Action)
    requires Enabled(s, a) && IsWorkerStep(a)
    ensures Next(cfg, s, a).gate ==
            if OnGate(a) == [] then s.gate else Gate.Next(cfg.gate, s.gate, OnGate(a)[0])
  {
  }

  lemma {:induction false} GateAlways(cfg: Config, s: State, acts: seq<Action>)
    requires Gate.Inv(cfg.gate, s.gate) && ValidRun(cfg, s, acts)
    ensures Gate.Inv(cfg.gate, Run(cfg, s, acts).gate)
    decreases |acts|
  {
    if acts != [] {
      if !acts[0].Reboot? {
        var gs := StepIsGateAction(cfg, s, acts[0]);
        if gs != [] {
          Gate.StepKeepsInv(cfg.gate, s.gate, gs[0]);
        }
      }
      GateAlways(cfg, Next(cfg, s, acts[0]), acts[1..]);
    }
  }

  // ---------- Crash and restart ----------

  // A new process begins with no job IN_PROGRESS, and with everything else in the tables as it was.
  lemma RebootRecovers(cfg: Config, s: State)
    ensures var db' := Next(cfg, s, Reboot).db;
      && (forall id :: IsPlayerJob(db', id) ==> db'.queue[id].status != InProgress)
      && db'.queue.Keys == s.db.queue.Keys && db'.urls == s.db.urls
      && (forall id :: id in s.db.queue ==>
            var q := s.db.queue[id];
            db'.queue[id] == if q.jobType == "player_info" && q.status == InProgress
                             then q.(status := Pending, lockedAt := None) else q)
  {
    Transitions.StaleRowsCounted(s.db, PLAYER_INFO);
    assert Next(cfg, s, Reboot).db == RecoverAllStale(s.db, PLAYER_INFO);
  }

  // Nobody is at work yet, nothing is queued, the gate is open, and time and history go on.
  lemma RebootResets(cfg: Config, s: State)
    ensures var s' := Next(cfg, s, Reboot);
      && |s'.workers| == |s.workers|
      && (forall w :: 0 <= w < |s'.workers| ==> s'.workers[w] == Worker(Restarting, 0, 0))
      && s'.gate.open && s'.gate.tasks == [] && s'.producer == Producer(Idle, false)
      && s'.buffer.queue == [] && !s'.buffer.closed && s'.buffer.seen == {} && s'.buffer.maxsize == s.buffer.maxsize
      && s'.slots == 2 && s'.now == s.now && s'.log == s.log
  {
  }
}
