/**
 The buffer inside a run of buffered mode, and how the run ends once the producer has stopped.
 */
module Shutdown {
  import opened Tables
  import opened QueueOps
  import opened BufferedRun
  import opened Tally
  import D = Dispatch
  import Pick

  // ---------- Counting workers ----------

  function Busy(x: Worker): nat {
    if x.pc.Exited? then 0 else 1
  }

  function InSlot(x: Worker): nat {
    if x.pc.Navigating? then 1 else 0
  }

  function Unfinished(ws: seq<Worker>): nat {
    Sum(Busy, ws)
  }

  function HoldingSlot(ws: seq<Worker>): nat {
    Sum(InSlot, ws)
  }

  lemma CountsAfterUpdate(ws: seq<Worker>, w: nat, x: Worker)
    requires w < |ws|
    ensures Unfinished(ws[w := x]) == Unfinished(ws) - Busy(ws[w]) + Busy(x)
    ensures HoldingSlot(ws[w := x]) == HoldingSlot(ws) - InSlot(ws[w]) + InSlot(x)
    ensures Busy(ws[w]) <= Unfinished(ws) <= |ws|
  {
    SumUpdate(Busy, ws, w, x);
    SumUpdate(InSlot, ws, w, x);
    SumAtMost(Busy, ws);
  }

  lemma FreshCounts(n: nat)
    ensures var ws := seq(n, _ => Worker(Restarting, 0, 0)); Unfinished(ws) == n && HoldingSlot(ws) == 0
  {
    var ws := seq(n, _ => Worker(Restarting, 0, 0));
    SumUniform(Busy, ws, 1);
    SumUniform(InSlot, ws, 0);
  }

  // ---------- Invariant ----------

  ghost predicate ProducerOk(s: State) {
    var p := s.producer.pc;
    && (p.Batch? || p.PutBlocked? ==>
          p.next <= |p.ids| && (!s.producer.stop ==> p.accepted + p.present == p.next))
    && (p.PutBlocked? ==> p.next < |p.ids|)
    && (s.buffer.closed <==> s.producer.stop || p.Finished?)
  }

  ghost predicate BufferOk(s: State) {
    && D.BufferInv(s.buffer, Waiting(s.producer.pc))
    && ProducerOk(s)
    && s.slots + HoldingSlot(s.workers) == FETCH_SLOTS && s.slots >= 0
    && (if s.producer.pc.Finished?
        then D.Sentinels(s.buffer.queue) >= Unfinished(s.workers)
        else D.Sentinels(s.buffer.queue) == 0)
  }

  lemma FinishKeepsBuffer(s: State)
    requires BufferOk(s) && !s.producer.pc.PutBlocked? && !s.producer.pc.Finished?
    ensures BufferOk(FinishProducer(s))
    ensures D.Refs(FinishProducer(s).buffer.queue) == D.Refs(s.buffer.queue)
  {
    var n := |s.workers|;
    D.CloseKeepsInv(s.buffer, n, {});
    D.HoldingsOfConcat(s.buffer.queue, seq(n, _ => D.Sentinel));
    D.HoldingsOfSentinels(n);
    SumAtMost(Busy, s.workers);
  }

  lemma PutBeginKeepsBuffer(cfg: Config, s: State)
    requires BufferOk(s) && Enabled(s, PutNext)
    ensures BufferOk(Next(cfg, s, PutNext))
  {
    var p := s.producer.pc;
    if p.next < |p.ids| && !s.producer.stop {
      var job := p.ids[p.next];
      var outcome := D.PutBeginOutcome(s.buffer, job);
      D.PutAddsNoSentinel(s.buffer, job);
      D.PutBeginKeepsInv(s.buffer, job, {});
      assert {} + {job} == {job};
      AfterPutKeepsBuffer(s, D.PutBegin(s.buffer, job), outcome);
    }
  }

  lemma PutResumeKeepsBuffer(cfg: Config, s: State)
    requires BufferOk(s) && Enabled(s, PutAgain)
    ensures BufferOk(Next(cfg, s, PutAgain))
  {
    var job := s.producer.pc.ids[s.producer.pc.next];
    var outcome := D.PutResumeOutcome(s.buffer, job);
    D.PutAddsNoSentinel(s.buffer, job);
    D.PutResumeKeepsInv(s.buffer, job, {job});
    assert {job} - {job} == {};
    AfterPutKeepsBuffer(s, D.PutResume(s.buffer, job), outcome);
  }

  // What a put leaves behind: the producer reserves the id it is blocked on and nothing else.
  lemma AfterPutKeepsBuffer(s: State, b: D.BufferState, outcome: D.PutOutcome)
    requires BufferOk(s) && (s.producer.pc.Batch? || s.producer.pc.PutBlocked?)
    requires s.producer.pc.next < |s.producer.pc.ids|
    requires b.closed == s.buffer.closed && D.Sentinels(b.queue) == D.Sentinels(s.buffer.queue)
    requires outcome.Closed? ==> b.closed
    requires D.BufferInv(b, if outcome.Blocked? then {s.producer.pc.ids[s.producer.pc.next]} else {})
    ensures BufferOk(AfterPut(s, b, outcome))
  {
  }

  // A worker's step as the rest of the system sees it.
  ghost predicate OneWorkerMoves(s: State, s': State, w: nat, took: bool)
    requires w < |s.workers|
  {
    && s'.producer == s.producer && |s'.workers| == |s.workers| && s'.workers == s.workers[w := s'.workers[w]]
    && (took ==> s.buffer.queue != [])
    && s'.buffer == (if took then D.Get(s.buffer) else s.buffer)
    && s'.slots + InSlot(s'.workers[w]) == s.slots + InSlot(s.workers[w]) && (s.slots >= 0 ==> s'.slots >= 0)
    && (s'.workers[w].pc.Exited? || !s.workers[w].pc.Exited?)
    && (took && s.buffer.queue[0].Sentinel? ==> s'.workers[w].pc.Exited? && !s.workers[w].pc.Exited?)
  }

  lemma WorkerMoves(cfg: Config, s: State, a: Action)
    requires Enabled(s, a) && IsWorkerStep(a)
    ensures OneWorkerMoves(s, Next(cfg, s, a), a.w, a.Take?)
  {
  }

  lemma MoveKeepsBuffer(s: State, s': State, w: nat, took: bool)
    requires BufferOk(s) && w < |s.workers| && OneWorkerMoves(s, s', w, took)
    ensures BufferOk(s')
  {
    CountsAfterUpdate(s.workers, w, s'.workers[w]);
    if took {
      D.GetKeepsInv(s.buffer, Waiting(s.producer.pc));
    }
  }

  lemma WorkerKeepsBuffer(cfg: Config, s: State, a: Action)
    requires BufferOk(s) && Enabled(s, a) && IsWorkerStep(a)
    ensures BufferOk(Next(cfg, s, a))
  {
    WorkerMoves(cfg, s, a);
    MoveKeepsBuffer(s, Next(cfg, s, a), a.w, a.Take?);
  }

  lemma ProducerKeepsBuffer(cfg: Config, s: State, a: Action)
    requires BufferOk(s) && Enabled(s, a) && (a.CheckStop? || a.Peek? || a.ProducerFails?)
    ensures BufferOk(Next(cfg, s, a))
  {
    FinishKeepsBuffer(s);
  }

  lemma RebootKeepsBuffer(cfg: Config, s: State)
    ensures BufferOk(Next(cfg, s, Reboot))
  {
    FreshCounts(|s.workers|);
  }

  lemma BufferKept(cfg: Config, s: State, a: Action)
    requires BufferOk(s) && Enabled(s, a)
    ensures BufferOk(Next(cfg, s, a))
  {
    if IsWorkerStep(a) {
      WorkerKeepsBuffer(cfg, s, a);
    } else if a.PutNext? {
      PutBeginKeepsBuffer(cfg, s);
    } else if a.PutAgain? {
      PutResumeKeepsBuffer(cfg, s);
    } else if a.CheckStop? || a.Peek? || a.ProducerFails? {
      ProducerKeepsBuffer(cfg, s, a);
    } else if a.Reboot? {
      RebootKeepsBuffer(cfg, s);
    } else {
      RestKeepsBuffer(cfg, s, a);
    }
  }

  lemma RestKeepsBuffer(cfg: Config, s: State, a: Action)
    requires BufferOk(s) && Enabled(s, a) && !IsWorkerStep(a) && !a.PutNext? && !a.PutAgain? && !a.CheckStop?
    requires !a.Peek? && !a.ProducerFails? && !a.Reboot?
    ensures BufferOk(Next(cfg, s, a))
  {
  }

  lemma {:induction false} BufferAlways(cfg: Config, s: State, acts: seq<Action>)
    requires BufferOk(s) && ValidRun(cfg, s, acts)
    ensures BufferOk(Run(cfg, s, acts))
    decreases |acts|
  {
    if acts != [] {
      BufferKept(cfg, s, acts[0]);
      BufferAlways(cfg, Next(cfg, s, acts[0]), acts[1..]);
    }
  }

  lemma BootedBufferOk(db: Db, n: nat, maxsize: int, now: Time, log: seq<Event>)
    ensures BufferOk(Booted(db, n, maxsize, now, log))
  {
    FreshCounts(n);
  }

  // The producer backs off after a batch only if every id of the batch was already present.
  lemma BackOffMeansAllPresent(cfg: Config, s: State, a: Action)
    requires BufferOk(s) && Enabled(s, a) && s.producer.pc.Batch? && Next(cfg, s, a).producer.pc.Sleeping?
    ensures s.producer.pc.present == |s.producer.pc.ids|
  {
    OnlyPutNextBacksOff(cfg, s, a);
  }

  lemma OnlyPutNextBacksOff(cfg: Config, s: State, a: Action)
    requires Enabled(s, a) && s.producer.pc.Batch? && Next(cfg, s, a).producer.pc.Sleeping?
    ensures a.PutNext? && !s.producer.stop && s.producer.pc.accepted == 0 && s.producer.pc.next >= |s.producer.pc.ids|
  {
  }

  // ---------- What the producer does ----------

  // It finishes when it finds itself stopped, when it fails, or when it finds no PENDING player_info
  // job and an empty buffer; and in no other case.
  lemma ProducerFinishesIff(cfg: Config, s: State, a: Action)
    requires Enabled(s, a) && !s.producer.pc.Finished? && !a.Reboot?
    ensures Next(cfg, s, a).producer.pc.Finished? <==>
      || (a.CheckStop? && s.producer.stop)
      || a.ProducerFails?
      || (a.Peek? && s.buffer.queue == []
          && forall id :: IsPlayerJob(s.db, id) ==> s.db.queue[id].status != Pending)
  {
    if a.Peek? {
      PeekedNothing(s, a.ids);
    }
  }

  lemma PeekedNothing(s: State, ids: seq<JobId>)
    requires Enabled(s, Peek(ids))
    ensures ids == [] <==> forall id :: IsPlayerJob(s.db, id) ==> s.db.queue[id].status != Pending
  {
    var limit: nat :| limit >= 1 && Pick.IsFirst(PendingIds(s.db), Pick.ById, limit, ids);
    forall id | IsPlayerJob(s.db, id) && s.db.queue[id].status == Pending ensures id in PendingIds(s.db) {}
    if ids == [] {
      assert PendingIds(s.db) == {};
    } else {
      assert ids[0] in PendingIds(s.db);
    }
  }

  // Until it has finished, the producer can step, unless it waits for the gate or for its stop.
  lemma ProducerCanStep(s: State) returns (a: Action)
    requires BufferOk(s) && !s.producer.pc.Finished? && (s.producer.pc.WaitingForGate? ==> s.gate.open)
    ensures Enabled(s, a) && (a.CheckStop? || a.ProducerPassesGate? || a.Peek? || a.PutNext? || a.PutAgain? || a.Wake?)
  {
    match s.producer.pc {
      case Idle => a := CheckStop;
      case WaitingForGate => a := ProducerPassesGate;
      case Peeking =>
        var ids := Pick.FirstExists(PendingIds(s.db), Pick.ById, 1);
        a := Peek(ids);
      case Batch(_, _, _, _) => a := PutNext;
      case PutBlocked(_, _, _, _) => a := PutAgain;
      case Sleeping => a := Wake;
    }
  }

  // What the producer can do where: it waits for the gate, takes a look that the tables answer, and a
  // look, a wait for the gate or a sleep can be cut short by a failure.
  lemma ProducerChoices(s: State, a: Action)
    requires a.CheckStop? || a.ProducerPassesGate? || a.PutNext? || a.PutAgain? || a.Wake? || a.ProducerFails?
    requires BufferOk(s)
    ensures Enabled(s, a) <==>
      match s.producer.pc
      case Idle => a.CheckStop?
      case WaitingForGate => (a.ProducerPassesGate? && s.gate.open) || a.ProducerFails?
      case Peeking => a.ProducerFails?
      case Batch(_, _, _, _) => a.PutNext?
      case PutBlocked(_, _, _, _) => a.PutAgain?
      case Sleeping => a.Wake? || a.ProducerFails?
      case Finished => false
  {
  }

  // The rest of the system acts at any time: a crash, a stop, an operator's recovery, the clock, a
  // scheduling that is due, and every step that the gate itself has.
  lemma TheRestIsFree(s: State, a: Action)
    requires a.Reboot? || a.RequestStop? || a.RecoverJob? || a.Tick? || a.ScheduleUrl? || a.GateStep?
    ensures Enabled(s, a) <==>
      && (a.Tick? ==> s.now <= a.now)
      && (a.ScheduleUrl? ==> Eligible(s.db, a.u, s.now) && IsConflict(s.db, s.db.urls[a.u].url, a.conflict))
      && (a.GateStep? && a.g.Resume? ==> a.g.t < |s.gate.tasks| && !s.gate.tasks[a.g.t].phase.Ended?)
  {
  }

  // It peeks with the gate open, goes through what it has peeked unless it is stopped, and sleeps before
  // the next look when the batch brought nothing new or there was nothing to peek.
  lemma ProducerMoves(cfg: Config, s: State, a: Action)
    requires Enabled(s, a) && !a.Reboot?
    ensures var p, p' := s.producer.pc, Next(cfg, s, a).producer.pc;
      && (p'.Peeking? && !p.Peeking? ==> s.gate.open && p.WaitingForGate?)
      && (p'.WaitingForGate? && !p.WaitingForGate? ==> !s.producer.stop && p.Idle?)
      && (a.Peek? && a.ids != [] ==> p' == Batch(a.ids, 0, 0, 0))
      && (a.Peek? && a.ids == [] && s.buffer.queue != [] ==> p'.Sleeping?)
      && (a.PutNext? && (s.producer.stop || p.next >= |p.ids|) ==>
            p' == if !s.producer.stop && p.accepted == 0 then Sleeping else Idle)
      && (a.Wake? ==> p'.Idle?) && (a.ProducerPassesGate? ==> p'.Peeking?)
      && (a.CheckStop? && !s.producer.stop ==> p'.WaitingForGate?)
      && (Next(cfg, s, a).producer.stop <==> s.producer.stop || a.RequestStop?)
  {
  }

  // ---------- First in, first out ----------

  // The id that a step of the producer puts into the buffer: it counts it as accepted.
  function PutIn(s: State, s': State): seq<JobId> {
    var p, p' := s.producer.pc, s'.producer.pc;
    if (p.Batch? || p.PutBlocked?) && p'.Batch? && p.next < |p.ids| && p'.ids == p.ids && p'.accepted == p.accepted + 1
    then [p.ids[p.next]] else []
  }

  // The reference that a step hands to a worker.
  function HandedOut(s: State, s': State, a: Action): seq<JobId> {
    if a.Take? && a.w < |s'.workers| && s'.workers[a.w].pc.GotRef? then [s'.workers[a.w].pc.job] else []
  }

  ghost function AllPutIn(cfg: Config, s: State, acts: seq<Action>): seq<JobId>
    requires ValidRun(cfg, s, acts)
    decreases |acts|
  {
    if acts == [] then []
    else
      var s' := Next(cfg, s, acts[0]);
      PutIn(s, s') + AllPutIn(cfg, s', acts[1..])
  }

  ghost function AllHandedOut(cfg: Config, s: State, acts: seq<Action>): seq<JobId>
    requires ValidRun(cfg, s, acts)
    decreases |acts|
  {
    if acts == [] then []
    else
      var s' := Next(cfg, s, acts[0]);
      HandedOut(s, s', acts[0]) + AllHandedOut(cfg, s', acts[1..])
  }

  lemma PutStep(cfg: Config, s: State, a: Action)
    requires BufferOk(s) && Enabled(s, a) && (a.PutNext? || a.PutAgain?)
    ensures D.Refs(Next(cfg, s, a).buffer.queue) == D.Refs(s.buffer.queue) + PutIn(s, Next(cfg, s, a))
    ensures PutIn(s, Next(cfg, s, a)) != [] ==> !s.buffer.closed
  {
    var p := s.producer.pc;
    if p.next < |p.ids| {
      D.RefsOfConcat(s.buffer.queue, [D.Ref(p.ids[p.next])]);
      assert D.Refs([D.Ref(p.ids[p.next])]) == [p.ids[p.next]];
    }
  }

  lemma WorkerTakes(cfg: Config, s: State, a: Action)
    requires Enabled(s, a) && IsWorkerStep(a)
    ensures var s' := Next(cfg, s, a);
      D.Refs(s.buffer.queue) == HandedOut(s, s', a) + D.Refs(s'.buffer.queue) && PutIn(s, s') == []
  {
    WorkerMoves(cfg, s, a);
  }

  lemma RestKeepsRefs(cfg: Config, s: State, a: Action)
    requires Enabled(s, a) && !IsWorkerStep(a) && !a.PutNext? && !a.PutAgain? && !a.Reboot?
    ensures var s' := Next(cfg, s, a);
      D.Refs(s'.buffer.queue) == D.Refs(s.buffer.queue) && HandedOut(s, s', a) == [] && PutIn(s, s') == []
  {
    var n := |s.workers|;
    D.RefsOfConcat(s.buffer.queue, seq(n, _ => D.Sentinel));
    D.HoldingsOfSentinels(n);
  }

  // Over every run the ids queued at the start, and then those the producer counts as accepted, in that
  // order, are those handed to workers and then those still queued: none lost, none invented, none twice.
  lemma {:induction false} AcceptedIsHandedOut(cfg: Config, s: State, acts: seq<Action>)
    requires BufferOk(s) && ValidRun(cfg, s, acts) && NoReboot(acts)
    ensures D.Refs(s.buffer.queue) + AllPutIn(cfg, s, acts) ==
            AllHandedOut(cfg, s, acts) + D.Refs(Run(cfg, s, acts).buffer.queue)
    decreases |acts|
  {
    if acts != [] {
      var a := acts[0];
      var s1 := Next(cfg, s, a);
      BufferKept(cfg, s, a);
      AcceptedIsHandedOut(cfg, s1, acts[1..]);
      RefsStep(cfg, s, a);
      var end := D.Refs(Run(cfg, s1, acts[1..]).buffer.queue);
      var first := HandedOut(s, s1, a);
      var tail := if IsWorkerStep(a) then D.Refs(s1.buffer.queue) else D.Refs(s.buffer.queue);
      D.Balance(first, tail, PutIn(s, s1), AllPutIn(cfg, s1, acts[1..]), AllHandedOut(cfg, s1, acts[1..]), end);
    }
  }

  lemma RefsStep(cfg: Config, s: State, a: Action)
    requires BufferOk(s) && Enabled(s, a) && !a.Reboot?
    ensures var s' := Next(cfg, s, a);
      var tail := if IsWorkerStep(a) then D.Refs(s'.buffer.queue) else D.Refs(s.buffer.queue);
      && D.Refs(s.buffer.queue) == HandedOut(s, s', a) + tail
      && D.Refs(s'.buffer.queue) == tail + PutIn(s, s')
  {
    if IsWorkerStep(a) {
      WorkerTakes(cfg, s, a);
    } else if a.PutNext? || a.PutAgain? {
      PutStep(cfg, s, a);
    } else {
      RestKeepsRefs(cfg, s, a);
    }
  }

  // ---------- How a worker ends ----------

  // With the gate open a worker goes on to wait for a reference, unless the buffer is closed and empty,
  // when it exits; and it takes what is at the head of the queue.
  lemma WorkerAtTheBuffer(cfg: Config, s: State, a: Action)
    requires Enabled(s, a) && (a.PassGate? || a.Take?)
    ensures var pc' := Pc(Next(cfg, s, a), a.w);
      && (a.PassGate? ==> pc' == if s.buffer.closed && s.buffer.queue == [] then Exited else Getting)
      && (a.Take? ==> match s.buffer.queue[0] case Ref(job) => pc' == GotRef(job) case Sentinel => pc' == Exited)
  {
  }

  // Once a worker has exited, the buffer is closed and no reference is left in it, for good.
  ghost predicate ExitsAreLast(s: State) {
    forall w :: 0 <= w < |s.workers| && Pc(s, w).Exited? ==> s.buffer.closed && D.Refs(s.buffer.queue) == []
  }

  lemma ExitStep(cfg: Config, s: State, a: Action)
    requires BufferOk(s) && ExitsAreLast(s) && Enabled(s, a)
    ensures ExitsAreLast(Next(cfg, s, a))
  {
    if !a.Reboot? {
      var s' := Next(cfg, s, a);
      RefsStep(cfg, s, a);
      forall w | 0 <= w < |s'.workers| && Pc(s', w).Exited?
        ensures s'.buffer.closed && D.Refs(s'.buffer.queue) == []
      {
        ExitMeansDrained(cfg, s, a, w);
      }
    }
  }

  lemma ExitMeansDrained(cfg: Config, s: State, a: Action, w: nat)
    requires BufferOk(s) && ExitsAreLast(s) && Enabled(s, a) && !a.Reboot?
    requires w < |Next(cfg, s, a).workers| && Pc(Next(cfg, s, a), w).Exited?
    ensures Next(cfg, s, a).buffer.closed && D.Refs(Next(cfg, s, a).buffer.queue) == []
  {
    SameWorkers(cfg, s, a);
    if Pc(s, w).Exited? {
      DrainedStaysDrained(cfg, s, a);
    } else {
      NewExit(cfg, s, a, w);
    }
  }

  lemma DrainedStaysDrained(cfg: Config, s: State, a: Action)
    requires BufferOk(s) && Enabled(s, a) && !a.Reboot? && s.buffer.closed && D.Refs(s.buffer.queue) == []
    ensures Next(cfg, s, a).buffer.closed && D.Refs(Next(cfg, s, a).buffer.queue) == []
  {
    StaysClosed(cfg, s, a);
    if IsWorkerStep(a) {
      WorkerTakes(cfg, s, a);
    } else if a.PutNext? || a.PutAgain? {
      PutStep(cfg, s, a);
    } else {
      RestKeepsRefs(cfg, s, a);
    }
  }

  lemma ExitingStep(cfg: Config, s: State, a: Action, w: nat)
    requires Enabled(s, a) && !a.Reboot? && w < |s.workers| && !Pc(s, w).Exited?
    requires w < |Next(cfg, s, a).workers| && Pc(Next(cfg, s, a), w).Exited?
    ensures || (a.PassGate? && D.IsExhausted(s.buffer) && Next(cfg, s, a).buffer == s.buffer)
            || (a.Take? && s.buffer.queue[0].Sentinel? && Next(cfg, s, a).buffer == D.Get(s.buffer))
  {
  }

  lemma NewExit(cfg: Config, s: State, a: Action, w: nat)
    requires BufferOk(s) && Enabled(s, a) && !a.Reboot? && w < |s.workers| && !Pc(s, w).Exited?
    requires w < |Next(cfg, s, a).workers| && Pc(Next(cfg, s, a), w).Exited?
    ensures Next(cfg, s, a).buffer.closed && D.Refs(Next(cfg, s, a).buffer.queue) == []
  {
    ExitingStep(cfg, s, a, w);
    if a.Take? {
      D.GetKeepsInv(s.buffer, Waiting(s.producer.pc));
      assert D.Sentinels(s.buffer.queue) > 0;
    }
  }

  lemma StaysClosed(cfg: Config, s: State, a: Action)
    requires Enabled(s, a) && !a.Reboot? && s.buffer.closed
    ensures Next(cfg, s, a).buffer.closed
  {
  }

  // So when a worker has exited, every reference that was ever accepted has been handed to some worker.
  lemma {:induction false} NothingLeftBehind(cfg: Config, s: State, acts: seq<Action>)
    requires BufferOk(s) && ExitsAreLast(s) && ValidRun(cfg, s, acts)
    ensures ExitsAreLast(Run(cfg, s, acts))
    decreases |acts|
  {
    if acts != [] {
      BufferKept(cfg, s, acts[0]);
      ExitStep(cfg, s, acts[0]);
      NothingLeftBehind(cfg, Next(cfg, s, acts[0]), acts[1..]);
    }
  }

  // From boot: once a worker has exited, the references handed out are those accepted, in order.
  lemma EverythingHandedOut(cfg: Config, db: Db, n: nat, maxsize: int, now: Time, acts: seq<Action>, w: nat)
    requires ValidRun(cfg, Booted(db, n, maxsize, now, []), acts) && NoReboot(acts)
    requires var s := Run(cfg, Booted(db, n, maxsize, now, []), acts); w < |s.workers| && Pc(s, w).Exited?
    ensures var s0 := Booted(db, n, maxsize, now, []); AllHandedOut(cfg, s0, acts) == AllPutIn(cfg, s0, acts)
  {
    var s0 := Booted(db, n, maxsize, now, []);
    BootedBufferOk(db, n, maxsize, now, []);
    AcceptedIsHandedOut(cfg, s0, acts);
    NothingLeftBehind(cfg, s0, acts);
    assert D.Refs(s0.buffer.queue) == [];
    assert [] + AllPutIn(cfg, s0, acts) == AllPutIn(cfg, s0, acts);
    assert AllHandedOut(cfg, s0, acts) + [] == AllHandedOut(cfg, s0, acts);
  }

  // No more than two navigations are under way at any time.
  lemma TwoNavigateAtMost(cfg: Config, s: State, acts: seq<Action>)
    requires BufferOk(s) && ValidRun(cfg, s, acts)
    ensures Sum(InSlot, Run(cfg, s, acts).workers) <= 2
    ensures Run(cfg, s, acts).slots == 2 - Sum(InSlot, Run(cfg, s, acts).workers)
  {
    BufferAlways(cfg, s, acts);
  }

  // Once the sentinels are sent, a worker waiting in get() finds something to take: no get() blocks.
  lemma NoGetBlocks(cfg: Config, s: State, acts: seq<Action>, w: nat)
    requires BufferOk(s) && ValidRun(cfg, s, acts)
    requires var s' := Run(cfg, s, acts); s'.producer.pc.Finished? && w < |s'.workers| && Pc(s', w).Getting?
    ensures Enabled(Run(cfg, s, acts), Take(w))
  {
    BufferAlways(cfg, s, acts);
    var s' := Run(cfg, s, acts);
    CountsAfterUpdate(s'.workers, w, s'.workers[w]);
  }

  // ---------- Every remaining reference is taken once, in order, before any sentinel ----------

  ghost function Taken(cfg: Config, s: State, acts: seq<Action>): seq<JobId>
    requires ValidRun(cfg, s, acts)
    decreases |acts|
  {
    if acts == [] then []
    else
      var rest := Taken(cfg, Next(cfg, s, acts[0]), acts[1..]);
      if acts[0].Take? && s.buffer.queue[0].Ref? then [s.buffer.queue[0].job] + rest else rest
  }

  lemma FinishedStep(cfg: Config, s: State, a: Action)
    requires BufferOk(s) && s.producer.pc.Finished? && Enabled(s, a) && !a.Reboot?
    ensures var s' := Next(cfg, s, a);
      && s'.producer.pc.Finished?
      && s'.buffer.queue == (if a.Take? then s.buffer.queue[1..] else s.buffer.queue)
      && (a.Take? && s.buffer.queue[0].Sentinel? ==> D.Refs(s.buffer.queue) == [])
  {
    QueueAfterFinish(cfg, s, a);
    if a.Take? {
      D.GetKeepsInv(s.buffer, Waiting(s.producer.pc));
    }
  }

  lemma QueueAfterFinish(cfg: Config, s: State, a: Action)
    requires s.producer.pc.Finished? && Enabled(s, a) && !a.Reboot?
    ensures Next(cfg, s, a).producer.pc.Finished?
    ensures Next(cfg, s, a).buffer.queue == (if a.Take? then s.buffer.queue[1..] else s.buffer.queue)
  {
    if IsWorkerStep(a) {
      WorkerMoves(cfg, s, a);
    }
  }

  lemma FinishedRefs(cfg: Config, s: State, a: Action)
    requires BufferOk(s) && s.producer.pc.Finished? && Enabled(s, a) && !a.Reboot?
    ensures var q, q' := s.buffer.queue, Next(cfg, s, a).buffer.queue;
      && D.Refs(q) == (if a.Take? && q[0].Ref? then [q[0].job] else []) + D.Refs(q')
      && (D.Sentinels(q') < D.Sentinels(q) ==> D.Refs(q) == [])
  {
    FinishedStep(cfg, s, a);
  }

  lemma {:induction false} RefsGoOutInOrder(cfg: Config, s: State, acts: seq<Action>)
    requires BufferOk(s) && s.producer.pc.Finished? && ValidRun(cfg, s, acts) && NoReboot(acts)
    ensures var s' := Run(cfg, s, acts);
      && s'.producer.pc.Finished?
      && D.Refs(s.buffer.queue) == Taken(cfg, s, acts) + D.Refs(s'.buffer.queue)
      && (D.Sentinels(s'.buffer.queue) < D.Sentinels(s.buffer.queue) ==> D.Refs(s'.buffer.queue) == [])
    decreases |acts|
  {
    if acts != [] {
      var s1 := Next(cfg, s, acts[0]);
      BufferKept(cfg, s, acts[0]);
      FinishedStep(cfg, s, acts[0]);
      FinishedRefs(cfg, s, acts[0]);
      RefsGoOutInOrder(cfg, s1, acts[1..]);
    }
  }

  // ---------- The drain phase terminates ----------

  const TAKE_COST := 22

  function Rank(pc: WorkerPc): nat {
    match pc
    case Exited => 0
    case Getting => 1
    case AtGate => 2
    case Restarting => 3
    case Releasing(_) => 4
    case Failing(_, tries, _) => if tries <= RECORD_ATTEMPTS then 4 + RECORD_ATTEMPTS - tries else 4
    case AtInnerGate(_, n) => Round(n)
    case AwaitingSlot(_, n) => Round(n) - 1
    case Navigating(_, n) => Round(n) - 2
    case Parsing(_, n) => Round(n) - 3
    case Claimed(_) => 21
    case GotRef(_) => 22
  }

  function Round(attempt: nat): (r: nat)
    ensures r >= 8
  {
    if attempt < MAX_ATTEMPTS then 8 + 4 * (MAX_ATTEMPTS - attempt) else 11
  }

  function WorkerRank(x: Worker): nat {
    Rank(x.pc)
  }

  function Measure(s: State): nat {
    TAKE_COST * |s.buffer.queue| + Sum(WorkerRank, s.workers)
  }

  // Attempt counters stay below their limits.
  predicate PcOk(pc: WorkerPc) {
    match pc
    case AtInnerGate(_, n) => n < MAX_ATTEMPTS
    case AwaitingSlot(_, n) => n < MAX_ATTEMPTS
    case Navigating(_, n) => n < MAX_ATTEMPTS
    case Parsing(_, n) => n < MAX_ATTEMPTS
    case Failing(_, tries, _) => tries < RECORD_ATTEMPTS
    case _ => true
  }

  ghost predicate AttemptsOk(s: State) {
    forall w :: 0 <= w < |s.workers| ==> PcOk(Pc(s, w))
  }

  lemma AttemptsKept(cfg: Config, s: State, a: Action)
    requires AttemptsOk(s) && Enabled(s, a)
    ensures AttemptsOk(Next(cfg, s, a))
  {
    var s' := Next(cfg, s, a);
    forall w | 0 <= w < |s'.workers| ensures PcOk(Pc(s', w)) {
      assert w < |s.workers| ==> PcOk(Pc(s, w));
    }
  }

  // A worker's step other than a failing engine start, of which there is no bound.
  predicate Progresses(a: Action) {
    IsWorkerStep(a) && !a.EngineFails?
  }

  lemma FaultRankDrops(pc: WorkerPc, fault: Fault)
    requires PcOk(pc) && (pc.Navigating? || pc.Parsing?)
    ensures Rank(AfterFault(pc.job, pc.attempt, fault)) < Rank(pc)
  {
  }

  lemma RankDrops(cfg: Config, s: State, a: Action)
    requires AttemptsOk(s) && Enabled(s, a) && Progresses(a)
    ensures a.w < |s.workers| && Next(cfg, s, a).workers == s.workers[a.w := Next(cfg, s, a).workers[a.w]]
    ensures Rank(Pc(Next(cfg, s, a), a.w)) < Rank(Pc(s, a.w)) + (if a.Take? then TAKE_COST else 0)
  {
    assert PcOk(Pc(s, a.w));
    if a.Faults? {
      FaultRankDrops(Pc(s, a.w), a.fault);
    }
  }

  lemma DrainStep(cfg: Config, s: State, a: Action)
    requires BufferOk(s) && AttemptsOk(s) && s.producer.pc.Finished? && Enabled(s, a) && !a.Reboot?
    ensures if Progresses(a) then Measure(Next(cfg, s, a)) < Measure(s) else Measure(Next(cfg, s, a)) == Measure(s)
  {
    FinishedStep(cfg, s, a);
    var s' := Next(cfg, s, a);
    assert a.Take? ==> |s'.buffer.queue| == |s.buffer.queue| - 1;
    if Progresses(a) {
      RankDrops(cfg, s, a);
      SumUpdate(WorkerRank, s.workers, a.w, s'.workers[a.w]);
    } else {
      assert s'.workers == s.workers;
    }
  }

  function WorkerSteps(acts: seq<Action>): nat {
    if acts == [] then 0 else (if Progresses(acts[0]) then 1 else 0) + WorkerSteps(acts[1..])
  }

  // After the producer has finished, the workers together take a bounded number of steps besides
  // failing engine starts; restarts, retries and aborts are included.
  lemma {:induction false} DrainIsBounded(cfg: Config, s: State, acts: seq<Action>)
    requires BufferOk(s) && AttemptsOk(s) && s.producer.pc.Finished? && ValidRun(cfg, s, acts) && NoReboot(acts)
    ensures WorkerSteps(acts) <= Measure(s)
    decreases |acts|
  {
    if acts != [] {
      BufferKept(cfg, s, acts[0]);
      FinishedStep(cfg, s, acts[0]);
      DrainStep(cfg, s, acts[0]);
      AttemptsKept(cfg, s, acts[0]);
      DrainIsBounded(cfg, Next(cfg, s, acts[0]), acts[1..]);
    }
  }

  lemma {:induction false} AttemptsAlways(cfg: Config, s: State, acts: seq<Action>)
    requires AttemptsOk(s) && ValidRun(cfg, s, acts)
    ensures AttemptsOk(Run(cfg, s, acts))
    decreases |acts|
  {
    if acts != [] {
      AttemptsKept(cfg, s, acts[0]);
      AttemptsAlways(cfg, Next(cfg, s, acts[0]), acts[1..]);
    }
  }

  // From boot: whatever led to the producer's end, the rest of the run is bounded.
  lemma ShutdownIsBounded(cfg: Config, db: Db, n: nat, maxsize: int, now: Time, acts: seq<Action>, rest: seq<Action>)
    requires ValidRun(cfg, Booted(db, n, maxsize, now, []), acts)
    requires var s := Run(cfg, Booted(db, n, maxsize, now, []), acts);
      s.producer.pc.Finished? && ValidRun(cfg, s, rest) && NoReboot(rest)
    ensures var s := Run(cfg, Booted(db, n, maxsize, now, []), acts);
      WorkerSteps(rest) <= Measure(s)
  {
    var s0 := Booted(db, n, maxsize, now, []);
    BootedBufferOk(db, n, maxsize, now, []);
    BufferAlways(cfg, s0, acts);
    AttemptsAlways(cfg, s0, acts);
    DrainIsBounded(cfg, Run(cfg, s0, acts), rest);
  }

  // And while one of them is unfinished and the gate is open, some worker can step.
  lemma SomeWorkerCanStep(s: State, w: nat) returns (a: Action)
    requires BufferOk(s) && s.producer.pc.Finished? && s.gate.open && w < |s.workers| && !Pc(s, w).Exited?
    ensures Progresses(a) && Enabled(s, a)
  {
    CountsAfterUpdate(s.workers, w, s.workers[w]);
    match Pc(s, w) {
      case Restarting => a := EngineUp(w);
      case AtGate => a := PassGate(w);
      case Getting => a := Take(w);
      case GotRef(_) => a := ClaimRow(w, false);
      case Claimed(_) => a := CheckGate(w);
      case Releasing(_) => a := ReleaseRow(w);
      case AtInnerGate(_, _) => a := PassInnerGate(w);
      case AwaitingSlot(_, _) =>
        if s.slots > 0 {
          a := BeginNavigation(w);
        } else {
          var o := SumPositive(InSlot, s.workers);
          a := EndNavigation(o);
        }
      case Navigating(_, _) => a := EndNavigation(w);
      case Parsing(_, _) => a := Succeeds(w);
      case Failing(_, _, _) => a := RecordRow(w, "");
    }
  }
}
