/**
 Any number of concurrent transactions, each on one job: recording a failure, recovering a FAILED job,
 completing a job, claiming it and giving it back. A transaction takes the row lock of its queue row,
 then, if it goes on to the registry, the row lock of the row it is linked to, writes and commits; it
 may give up at any point before that. A row lock is held to the end of the transaction.

 A claim skips a locked row instead of waiting. A completion reads its row without a lock first, and
 the columns it writes later are those that differ from that copy.
 */
module LockProtocol {
  import opened Tables
  import opened QueueOps
  import opened Tally

  datatype Kind = Record(error: string) | Recover | Complete | Take | GiveBack

  datatype Txn = Txn(kind: Kind, job: JobId)

  datatype Config = Config(txns: seq<Txn>, maxRetries: int)

  // `copy` is what a completion read without a lock, `q` the queue row as it was read under its lock.
  datatype Pc =
    | Start
    | HasRead(copy: QueueRow)
    | HasQueue(copy: QueueRow, q: QueueRow)
    | HasBoth(copy: QueueRow, q: QueueRow, u: UrlId)
    | Committed
    | GaveUp

  datatype Entry = Entry(t: nat, at: Time)

  // `log` lists the commits in order; `held` says that every completion so far has read a row that
  // was IN_PROGRESS and locked, as the row of a job is while a worker holds it.
  datatype State = State(db: Db, pcs: seq<Pc>, log: seq<Entry>, held: bool)

  datatype Action = ReadRow(t: nat) | LockQueue(t: nat) | LockUrl(t: nat) | Commit(t: nat, now: Time) | Abort(t: nat)

  predicate LocksQueue(pc: Pc) {
    pc.HasQueue? || pc.HasBoth?
  }

  predicate HoldsQueue(cfg: Config, s: State, t: nat, job: JobId)
    requires |s.pcs| == |cfg.txns|
  {
    t < |s.pcs| && cfg.txns[t].job == job && LocksQueue(s.pcs[t])
  }

  predicate HoldsUrl(s: State, t: nat, u: UrlId) {
    t < |s.pcs| && s.pcs[t].HasBoth? && s.pcs[t].u == u
  }

  predicate QueueTaken(cfg: Config, s: State, t: nat)
    requires |s.pcs| == |cfg.txns| && t < |s.pcs|
  {
    exists o :: 0 <= o < |s.pcs| && o != t && HoldsQueue(cfg, s, o, cfg.txns[t].job)
  }

  predicate UrlTaken(s: State, t: nat, u: UrlId) {
    exists o :: 0 <= o < |s.pcs| && o != t && HoldsUrl(s, o, u)
  }

  predicate Unfinished(pc: Pc) {
    !pc.Committed? && !pc.GaveUp?
  }

  // Next to lock its queue row.
  predicate AtQueueLock(cfg: Config, s: State, t: nat)
    requires |s.pcs| == |cfg.txns| && t < |s.pcs|
  {
    if cfg.txns[t].kind.Complete? then s.pcs[t].HasRead? else s.pcs[t].Start?
  }

  // Whether the transaction goes on to the registry; a completion updates nothing there if the row is missing.
  predicate NeedsUrl(kind: Kind, db: Db, q: QueueRow) {
    !kind.Take? && !kind.GiveBack? && q.fkUrl.Some? && (kind.Complete? ==> q.fkUrl.value in db.urls)
  }

  predicate Enabled(cfg: Config, s: State, a: Action)
    requires |s.pcs| == |cfg.txns|
  {
    && a.t < |s.pcs|
    && var kind := cfg.txns[a.t].kind;
       match a
       case ReadRow(t) => s.pcs[t].Start? && kind.Complete?
       case LockQueue(t) => AtQueueLock(cfg, s, t) && (kind.Take? || !QueueTaken(cfg, s, t))
       case LockUrl(t) =>
         s.pcs[t].HasQueue? && NeedsUrl(kind, s.db, s.pcs[t].q) && !UrlTaken(s, t, s.pcs[t].q.fkUrl.value)
       case Commit(t, _) => s.pcs[t].HasBoth? || (s.pcs[t].HasQueue? && !NeedsUrl(kind, s.db, s.pcs[t].q))
       case Abort(t) => Unfinished(s.pcs[t])
  }

  // What a transaction of this kind demands of the row it has locked.
  predicate Admits(kind: Kind, db: Db, job: JobId) {
    match kind
    case Record(_) => IsPlayerJob(db, job)
    case Recover => IsPlayerJob(db, job) && db.queue[job].status == Failed && db.queue[job].fkUrl.Some?
    case Complete => job in db.queue
    case Take => Claimable(db, job, PLAYER_INFO)
    case GiveBack => Releasable(db, job, PLAYER_INFO)
  }

  function AfterQueueLock(cfg: Config, s: State, t: nat): Pc
    requires |s.pcs| == |cfg.txns| && t < |s.pcs| && AtQueueLock(cfg, s, t)
  {
    var job := cfg.txns[t].job;
    if !Admits(cfg.txns[t].kind, s.db, job) || QueueTaken(cfg, s, t) then GaveUp
    else HasQueue(if s.pcs[t].HasRead? then s.pcs[t].copy else s.db.queue[job], s.db.queue[job])
  }

  function AfterUrlLock(kind: Kind, db: Db, pc: Pc): Pc
    requires pc.HasQueue? && pc.q.fkUrl.Some?
  {
    var u := pc.q.fkUrl.value;
    if u !in db.urls || (kind.Recover? && db.urls[u].status != Stale) then GaveUp else HasBoth(pc.copy, pc.q, u)
  }

  // The columns of a completion that differ from its copy.
  function Overwritten(copy: QueueRow, q: QueueRow, now: Time): QueueRow {
    q.(status := if copy.status == Done then q.status else Done,
       completedAt := Some(now),
       lockedAt := if copy.lockedAt.None? then q.lockedAt else None)
  }

  // A column that the completion leaves as its copy has it stays as the row has it by now.
  lemma OverwrittenMeans(copy: QueueRow, q: QueueRow, now: Time)
    ensures var r := Overwritten(copy, q, now);
      && (copy.status == Done ==> r.status == q.status) && (copy.status != Done ==> r.status == Done)
      && (copy.lockedAt.None? ==> r.lockedAt == q.lockedAt) && (copy.lockedAt.Some? ==> r.lockedAt.None?)
      && r == q.(status := r.status, lockedAt := r.lockedAt, completedAt := Some(now))
  {
  }

  // The queue row is written from the copy that was read; the registry row by UPDATE statements.
  function Written(cfg: Config, db: Db, t: nat, pc: Pc, now: Time): Db
    requires t < |cfg.txns| && LocksQueue(pc)
  {
    var job, q := cfg.txns[t].job, pc.q;
    match cfg.txns[t].kind
    case Record(error) =>
      var db' := SetRow(db, job, FailedOnce(q, error, cfg.maxRetries, now));
      if pc.HasBoth? && pc.u in db.urls then
        var terminal := IsTerminal(q.retryCount, cfg.maxRetries);
        db'.(urls := db.urls[pc.u := UrlFailed(db.urls[pc.u], q.retryCount + 1, error, terminal)])
      else db'
    case Recover =>
      var db' := SetRow(db, job, Revived(q));
      if pc.HasBoth? && pc.u in db.urls && db.urls[pc.u].status == Stale then
        db'.(urls := db.urls[pc.u := UrlRevived(db.urls[pc.u], now)])
      else db'
    case Complete =>
      var db' := SetRow(db, job, Overwritten(pc.copy, q, now));
      if q.fkUrl.Some? then MarkScraped(db', q.fkUrl.value, now) else db'
    case Take => SetRow(db, job, Claimed(q, now))
    case GiveBack => SetRow(db, job, Released(q))
  }

  predicate HeldCopy(copy: QueueRow) {
    copy.status == InProgress && copy.lockedAt.Some?
  }

  function Next(cfg: Config, s: State, a: Action): State
    requires |s.pcs| == |cfg.txns| && Enabled(cfg, s, a)
  {
    match a
    case ReadRow(t) =>
      var job := cfg.txns[t].job;
      if job in s.db.queue
      then s.(pcs := s.pcs[t := HasRead(s.db.queue[job])], held := s.held && HeldCopy(s.db.queue[job]))
      else s.(pcs := s.pcs[t := GaveUp])
    case LockQueue(t) => s.(pcs := s.pcs[t := AfterQueueLock(cfg, s, t)])
    case LockUrl(t) => s.(pcs := s.pcs[t := AfterUrlLock(cfg.txns[t].kind, s.db, s.pcs[t])])
    case Commit(t, now) =>
      s.(db := Written(cfg, s.db, t, s.pcs[t], now), pcs := s.pcs[t := Committed], log := s.log + [Entry(t, now)])
    case Abort(t) => s.(pcs := s.pcs[t := GaveUp])
  }

  function Init(cfg: Config, db: Db): State {
    State(db, seq(|cfg.txns|, _ => Start), [], true)
  }

  // ---------- The serial reference ----------

  function Exec(cfg: Config, db: Db, e: Entry): Db
    requires e.t < |cfg.txns|
  {
    var job := cfg.txns[e.t].job;
    match cfg.txns[e.t].kind
    case Record(error) => RecordFailure(db, job, error, cfg.maxRetries, e.at)
    case Recover => RecoverJob(db, job, e.at)
    case Complete => if job in db.queue then Succeed(db, job, e.at) else db
    case Take => Claim(db, job, PLAYER_INFO, e.at)
    case GiveBack => Release(db, job, PLAYER_INFO)
  }

  function Serial(cfg: Config, db: Db, log: seq<Entry>): Db
    requires forall i :: 0 <= i < |log| ==> log[i].t < |cfg.txns|
  {
    if log == [] then db else Exec(cfg, Serial(cfg, db, log[..|log| - 1]), log[|log| - 1])
  }

  lemma SerialSnoc(cfg: Config, db: Db, log: seq<Entry>, e: Entry)
    requires e.t < |cfg.txns| && forall i :: 0 <= i < |log| ==> log[i].t < |cfg.txns|
    ensures Serial(cfg, db, log + [e]) == Exec(cfg, Serial(cfg, db, log), e)
  {
    assert (log + [e])[..|log|] == log;
  }

  // ---------- Invariant ----------

  // What a transaction has read under its locks is still so.
  predicate Fresh(txn: Txn, db: Db, pc: Pc) {
    match pc
    case HasRead(_) => txn.kind.Complete?
    case HasQueue(_, q) => Admits(txn.kind, db, txn.job) && db.queue[txn.job] == q
    case HasBoth(_, q, u) =>
      && Admits(txn.kind, db, txn.job) && db.queue[txn.job] == q && NeedsUrl(txn.kind, db, q)
      && q.fkUrl == Some(u) && u in db.urls && (txn.kind.Recover? ==> db.urls[u].status == Stale)
    case _ => true
  }

  predicate CopyOk(kind: Kind, pc: Pc) {
    kind.Complete? && (pc.HasRead? || LocksQueue(pc)) ==> HeldCopy(pc.copy)
  }

  ghost predicate Mutex(cfg: Config, s: State)
    requires |s.pcs| == |cfg.txns|
  {
    && (forall t: nat, o: nat, job :: HoldsQueue(cfg, s, t, job) && HoldsQueue(cfg, s, o, job) ==> t == o)
    && (forall t: nat, o: nat, u :: HoldsUrl(s, t, u) && HoldsUrl(s, o, u) ==> t == o)
  }

  // The log names every committed transaction, once.
  ghost predicate LogOk(s: State) {
    && (forall i :: 0 <= i < |s.log| ==> s.log[i].t < |s.pcs| && s.pcs[s.log[i].t].Committed?)
    && (forall i, j :: 0 <= i < j < |s.log| ==> s.log[i].t != s.log[j].t)
    && (forall t :: 0 <= t < |s.pcs| && s.pcs[t].Committed? ==> exists i :: 0 <= i < |s.log| && s.log[i].t == t)
  }

  ghost predicate ReadsOk(cfg: Config, s: State)
    requires |s.pcs| == |cfg.txns|
  {
    forall t :: 0 <= t < |s.pcs| ==>
      Fresh(cfg.txns[t], s.db, s.pcs[t]) && (s.held ==> CopyOk(cfg.txns[t].kind, s.pcs[t]))
  }

  ghost predicate Inv(cfg: Config, db0: Db, s: State) {
    && |s.pcs| == |cfg.txns|
    && LogOk(s)
    && (s.held ==> s.db == Serial(cfg, db0, s.log))
    && Mutex(cfg, s)
    && ReadsOk(cfg, s)
  }

  lemma InitInv(cfg: Config, db: Db)
    ensures Inv(cfg, db, Init(cfg, db))
  {
  }

  // A commit writes what the transaction would write if it ran alone on the current tables.
  lemma CommitIsSerial(cfg: Config, s: State, t: nat, now: Time)
    requires |s.pcs| == |cfg.txns| && Enabled(cfg, s, Commit(t, now))
    requires Fresh(cfg.txns[t], s.db, s.pcs[t]) && CopyOk(cfg.txns[t].kind, s.pcs[t])
    ensures Written(cfg, s.db, t, s.pcs[t], now) == Exec(cfg, s.db, Entry(t, now))
  {
  }

  // A commit writes the rows that its transaction has locked.
  lemma CommitWritesItsRows(cfg: Config, s: State, t: nat, now: Time)
    requires |s.pcs| == |cfg.txns| && Enabled(cfg, s, Commit(t, now)) && Fresh(cfg.txns[t], s.db, s.pcs[t])
    ensures var db' := Written(cfg, s.db, t, s.pcs[t], now);
      && db'.queue.Keys == s.db.queue.Keys && db'.urls.Keys == s.db.urls.Keys
      && (forall id :: id in s.db.queue && id != cfg.txns[t].job ==> db'.queue[id] == s.db.queue[id])
      && (forall u :: u in s.db.urls && !HoldsUrl(s, t, u) ==> db'.urls[u] == s.db.urls[u])
  {
  }

  // So what another transaction has read under its locks, a commit does not change.
  lemma CommitKeepsReads(cfg: Config, s: State, t: nat, now: Time, o: nat)
    requires |s.pcs| == |cfg.txns| && Mutex(cfg, s) && ReadsOk(cfg, s)
    requires Enabled(cfg, s, Commit(t, now)) && o < |s.pcs| && o != t
    ensures Fresh(cfg.txns[o], Written(cfg, s.db, t, s.pcs[t], now), s.pcs[o])
  {
    CommitWritesItsRows(cfg, s, t, now);
    assert HoldsQueue(cfg, s, t, cfg.txns[t].job);
    if LocksQueue(s.pcs[o]) {
      assert HoldsQueue(cfg, s, o, cfg.txns[o].job);
      assert s.pcs[o].HasBoth? ==> HoldsUrl(s, o, s.pcs[o].u);
    }
  }

  lemma LogKept(s: State, s': State, t: nat, now: Time)
    requires t < |s.pcs| && LogOk(s) && !s.pcs[t].Committed?
    requires s'.pcs == s.pcs[t := Committed] && s'.log == s.log + [Entry(t, now)]
    ensures LogOk(s')
  {
    assert s'.log[|s.log|].t == t;
    forall o | 0 <= o < |s'.pcs| && s'.pcs[o].Committed? ensures exists i :: 0 <= i < |s'.log| && s'.log[i].t == o {
      if o != t {
        var i :| 0 <= i < |s.log| && s.log[i].t == o;
        assert s'.log[i].t == o;
      }
    }
  }

  // Mutual exclusion survives when no transaction but `t` gains a lock, and `t` only free ones.
  lemma MutexKept(cfg: Config, s: State, s': State, t: nat)
    requires |s.pcs| == |s'.pcs| == |cfg.txns| && Mutex(cfg, s) && t < |s.pcs|
    requires s'.pcs == s.pcs[t := s'.pcs[t]]
    requires LocksQueue(s'.pcs[t]) ==> LocksQueue(s.pcs[t]) || !QueueTaken(cfg, s, t)
    requires s'.pcs[t].HasBoth? ==> !UrlTaken(s, t, s'.pcs[t].u)
    ensures Mutex(cfg, s')
  {
    assert forall o: nat, job :: o != t && HoldsQueue(cfg, s', o, job) ==> HoldsQueue(cfg, s, o, job);
    assert forall o: nat, u :: o != t && HoldsUrl(s', o, u) ==> HoldsUrl(s, o, u);
    assert LocksQueue(s.pcs[t]) ==> HoldsQueue(cfg, s, t, cfg.txns[t].job);
  }

  lemma CommitKeepsInv(cfg: Config, db0: Db, s: State, t: nat, now: Time)
    requires Inv(cfg, db0, s) && Enabled(cfg, s, Commit(t, now))
    ensures Inv(cfg, db0, Next(cfg, s, Commit(t, now)))
  {
    var s' := Next(cfg, s, Commit(t, now));
    LogKept(s, s', t, now);
    MutexKept(cfg, s, s', t);
    forall o | 0 <= o < |s'.pcs| && o != t ensures Fresh(cfg.txns[o], s'.db, s'.pcs[o]) {
      CommitKeepsReads(cfg, s, t, now, o);
    }
    if s.held {
      CommitIsSerial(cfg, s, t, now);
      SerialSnoc(cfg, db0, s.log, Entry(t, now));
    }
  }

  lemma OtherKeepsInv(cfg: Config, db0: Db, s: State, a: Action)
    requires Inv(cfg, db0, s) && Enabled(cfg, s, a) && !a.Commit?
    ensures Inv(cfg, db0, Next(cfg, s, a))
  {
    var s' := Next(cfg, s, a);
    MutexKept(cfg, s, s', a.t);
    ReadsAfter(cfg, s, a);
    assert s'.pcs == s.pcs[a.t := s'.pcs[a.t]] && s'.db == s.db && s'.log == s.log;
  }

  // What a transaction reads is fresh, and a completion's copy counts for `held`.
  lemma ReadsAfter(cfg: Config, s: State, a: Action)
    requires |s.pcs| == |cfg.txns| && ReadsOk(cfg, s) && Enabled(cfg, s, a) && !a.Commit?
    ensures ReadsOk(cfg, Next(cfg, s, a))
  {
    assert Fresh(cfg.txns[a.t], s.db, s.pcs[a.t]);
  }

  // ---------- Runs ----------

  ghost predicate ValidRun(cfg: Config, s: State, acts: seq<Action>)
    requires |s.pcs| == |cfg.txns|
    decreases |acts|
  {
    acts != [] ==> Enabled(cfg, s, acts[0]) && ValidRun(cfg, Next(cfg, s, acts[0]), acts[1..])
  }

  ghost function Run(cfg: Config, s: State, acts: seq<Action>): (r: State)
    requires |s.pcs| == |cfg.txns| && ValidRun(cfg, s, acts)
    ensures |r.pcs| == |cfg.txns|
    decreases |acts|
  {
    if acts == [] then s else Run(cfg, Next(cfg, s, acts[0]), acts[1..])
  }

  lemma {:induction false} RunKeepsInv(cfg: Config, db0: Db, s: State, acts: seq<Action>)
    requires Inv(cfg, db0, s) && ValidRun(cfg, s, acts)
    ensures Inv(cfg, db0, Run(cfg, s, acts))
    decreases |acts|
  {
    if acts != [] {
      if acts[0].Commit? {
        CommitKeepsInv(cfg, db0, s, acts[0].t, acts[0].now);
      } else {
        OtherKeepsInv(cfg, db0, s, acts[0]);
      }
      RunKeepsInv(cfg, db0, Next(cfg, s, acts[0]), acts[1..]);
    }
  }

  // Every completion in the run reads a row that is IN_PROGRESS and locked, as the row of a job is
  // while a worker holds it.
  ghost predicate ReadsHeldJobs(cfg: Config, s: State, acts: seq<Action>)
    requires |s.pcs| == |cfg.txns| && ValidRun(cfg, s, acts)
    decreases |acts|
  {
    acts != [] ==>
      && (var job := cfg.txns[acts[0].t].job;
          acts[0].ReadRow? && job in s.db.queue ==>
            s.db.queue[job].status == InProgress && s.db.queue[job].lockedAt.Some?)
      && ReadsHeldJobs(cfg, Next(cfg, s, acts[0]), acts[1..])
  }

  lemma {:induction false} HeldIffReadsHeldJobs(cfg: Config, s: State, acts: seq<Action>)
    requires |s.pcs| == |cfg.txns| && ValidRun(cfg, s, acts)
    ensures Run(cfg, s, acts).held <==> s.held && ReadsHeldJobs(cfg, s, acts)
    decreases |acts|
  {
    if acts != [] {
      HeldIffReadsHeldJobs(cfg, Next(cfg, s, acts[0]), acts[1..]);
    }
  }

  // After any interleaving the tables are those of running the committed transactions one after
  // the other, in commit order, each committed transaction exactly once, provided that jobs are
  // completed by workers that hold them.
  lemma Serializable(cfg: Config, db0: Db, acts: seq<Action>)
    requires ValidRun(cfg, Init(cfg, db0), acts)
    ensures var s := Run(cfg, Init(cfg, db0), acts);
      && |s.pcs| == |cfg.txns|
      && (forall i :: 0 <= i < |s.log| ==> s.log[i].t < |cfg.txns|)
      && (ReadsHeldJobs(cfg, Init(cfg, db0), acts) ==> s.db == Serial(cfg, db0, s.log))
      && (forall i, j :: 0 <= i < j < |s.log| ==> s.log[i].t != s.log[j].t)
      && (forall t :: 0 <= t < |s.pcs| ==> (s.pcs[t].Committed? <==> exists i :: 0 <= i < |s.log| && s.log[i].t == t))
  {
    InitInv(cfg, db0);
    RunKeepsInv(cfg, db0, Init(cfg, db0), acts);
    HeldIffReadsHeldJobs(cfg, Init(cfg, db0), acts);
  }

  // Without completions there is nothing to provide for.
  lemma {:induction false} NoCompletionsNoReads(cfg: Config, s: State, acts: seq<Action>)
    requires |s.pcs| == |cfg.txns| && ValidRun(cfg, s, acts)
    requires forall t :: 0 <= t < |cfg.txns| ==> !cfg.txns[t].kind.Complete?
    ensures ReadsHeldJobs(cfg, s, acts)
    decreases |acts|
  {
    if acts != [] {
      NoCompletionsNoReads(cfg, Next(cfg, s, acts[0]), acts[1..]);
    }
  }

  // With them there is: a completion that reads its job before another worker claims it, and writes
  // after, leaves the job DONE with the claim's `locked_at`.
  lemma AnUnheldCompletion(cfg: Config, db0: Db) returns (acts: seq<Action>)
    requires cfg == Config([Txn(Complete, 1), Txn(Take, 1)], 5) && db0 == Db(map[1 := FreshRow("u", 1)], map[], 2)
    ensures ValidRun(cfg, Init(cfg, db0), acts)
    ensures var s := Run(cfg, Init(cfg, db0), acts);
      && (forall i :: 0 <= i < |s.log| ==> s.log[i].t < |cfg.txns|)
      && !ReadsHeldJobs(cfg, Init(cfg, db0), acts) && s.db != Serial(cfg, db0, s.log)
  {
    var s0 := Init(cfg, db0);
    var s1 := Next(cfg, s0, ReadRow(0));
    var s2 := Next(cfg, s1, LockQueue(1));
    var s3 := Next(cfg, s2, Commit(1, 5));
    assert s3 == ClaimedMeanwhile(db0);
    var last;
    last := LateWrite(cfg, db0, s3);
    acts := [Commit(1, 5)] + last;
    RunCons(cfg, s2, Commit(1, 5), last);
    RunCons(cfg, s1, LockQueue(1), acts);
    acts := [LockQueue(1)] + acts;
    RunCons(cfg, s0, ReadRow(0), acts);
    acts := [ReadRow(0)] + acts;
    HeldIffReadsHeldJobs(cfg, s0, acts);
  }

  // The job as the completion read it, and as the claim committed since then left it.
  function ClaimedMeanwhile(db0: Db): State
    requires 1 in db0.queue
  {
    var q := db0.queue[1];
    State(SetRow(db0, 1, Claimed(q, 5)), [HasRead(q), Committed], [Entry(1, 5)], false)
  }

  lemma LateWrite(cfg: Config, db0: Db, s: State) returns (acts: seq<Action>)
    requires cfg == Config([Txn(Complete, 1), Txn(Take, 1)], 5) && db0 == Db(map[1 := FreshRow("u", 1)], map[], 2)
    requires s == ClaimedMeanwhile(db0)
    ensures ValidRun(cfg, s, acts)
    ensures var s' := Run(cfg, s, acts);
      && (forall i :: 0 <= i < |s'.log| ==> s'.log[i].t < |cfg.txns|)
      && !s'.held && s'.db != Serial(cfg, db0, s'.log)
  {
    var s1 := Next(cfg, s, LockQueue(0));
    var s2 := Next(cfg, s1, Commit(0, 6));
    RunCons(cfg, s1, Commit(0, 6), []);
    RunCons(cfg, s, LockQueue(0), [Commit(0, 6)] + []);
    acts := [LockQueue(0)] + ([Commit(0, 6)] + []);
    SerialSnoc(cfg, db0, [], Entry(1, 5));
    SerialSnoc(cfg, db0, [Entry(1, 5)], Entry(0, 6));
    assert [] + [Entry(1, 5)] == [Entry(1, 5)];
    assert s2.db.queue[1].lockedAt == Some(5);
  }

  lemma RunCons(cfg: Config, s: State, a: Action, acts: seq<Action>)
    requires |s.pcs| == |cfg.txns| && Enabled(cfg, s, a) && ValidRun(cfg, Next(cfg, s, a), acts)
    ensures ValidRun(cfg, s, [a] + acts) && Run(cfg, s, [a] + acts) == Run(cfg, Next(cfg, s, a), acts)
  {
    assert ([a] + acts)[1..] == acts;
  }

  // ---------- Who commits ----------

  // The transaction, run alone on these tables, does something.
  predicate Applies(txn: Txn, db: Db) {
    match txn.kind
    case Record(_) => FailureOutcome(db, txn.job) == Applied
    case Recover => Recoverable(db, txn.job)
    case Complete => txn.job in db.queue
    case Take => Claimable(db, txn.job, PLAYER_INFO)
    case GiveBack => Releasable(db, txn.job, PLAYER_INFO)
  }

  // In any interleaving a transaction that can commit applies to the tables as they are then.
  lemma CommitMeansApplies(cfg: Config, db0: Db, s: State, t: nat, now: Time)
    requires Inv(cfg, db0, s) && Enabled(cfg, s, Commit(t, now))
    ensures Applies(cfg.txns[t], s.db)
  {
    assert Fresh(cfg.txns[t], s.db, s.pcs[t]);
  }

  // And one that ends without having been aborted does not, unless it is a claim that found its row locked.
  lemma GivingUpMeansNot(cfg: Config, db0: Db, s: State, a: Action)
    requires Inv(cfg, db0, s) && Enabled(cfg, s, a) && !a.Abort? && Next(cfg, s, a).pcs[a.t].GaveUp?
    ensures Next(cfg, s, a).db == s.db
    ensures !Applies(cfg.txns[a.t], s.db) || (cfg.txns[a.t].kind.Take? && QueueTaken(cfg, s, a.t))
  {
    assert Fresh(cfg.txns[a.t], s.db, s.pcs[a.t]);
  }

  // A claim never waits: it gives up on a row that somebody has locked.
  lemma ClaimNeverWaits(cfg: Config, s: State, t: nat, o: nat)
    requires |s.pcs| == |cfg.txns| && t < |s.pcs| && cfg.txns[t].kind.Take? && s.pcs[t].Start?
    ensures Enabled(cfg, s, LockQueue(t))
    ensures o != t && HoldsQueue(cfg, s, o, cfg.txns[t].job) ==> Next(cfg, s, LockQueue(t)).pcs[t].GaveUp?
  {
  }

  // Nobody but `t` holds a lock.
  predicate AloneWithLocks(s: State, t: nat) {
    t < |s.pcs| && forall o :: 0 <= o < |s.pcs| && o != t ==> !LocksQueue(s.pcs[o])
  }

  ghost predicate OnlyBy(acts: seq<Action>, t: nat) {
    forall i :: 0 <= i < |acts| ==> acts[i].t == t && !acts[i].Abort?
  }

  // What a transaction left alone on the tables `db` has come to.
  ghost predicate Alone(cfg: Config, db: Db, s: State, t: nat)
    requires |s.pcs| == |cfg.txns|
  {
    && AloneWithLocks(s, t)
    && Fresh(cfg.txns[t], s.db, s.pcs[t])
    && (Unfinished(s.pcs[t]) ==> s.db == db)
    && (s.pcs[t].HasRead? || LocksQueue(s.pcs[t]) ==> cfg.txns[t].job in db.queue)
    && (s.pcs[t].Committed? ==> Applies(cfg.txns[t], db))
    && (s.pcs[t].GaveUp? ==> !Applies(cfg.txns[t], db) && s.db == db)
  }

  lemma AloneStep(cfg: Config, db: Db, s: State, a: Action)
    requires |s.pcs| == |cfg.txns| && Enabled(cfg, s, a) && !a.Abort? && Alone(cfg, db, s, a.t)
    ensures Alone(cfg, db, Next(cfg, s, a), a.t)
  {
  }

  lemma {:induction false} AloneRun(cfg: Config, db: Db, s: State, t: nat, acts: seq<Action>)
    requires |s.pcs| == |cfg.txns| && Alone(cfg, db, s, t) && ValidRun(cfg, s, acts) && OnlyBy(acts, t)
    ensures Alone(cfg, db, Run(cfg, s, acts), t)
    decreases |acts|
  {
    if acts != [] {
      AloneStep(cfg, db, s, acts[0]);
      AloneRun(cfg, db, Next(cfg, s, acts[0]), t, acts[1..]);
    }
  }

  // From any state in which no other transaction holds a lock, however a transaction runs to its end
  // without being aborted: it commits exactly if it applies.
  lemma LeftAloneCommitsIffApplies(cfg: Config, s: State, t: nat, acts: seq<Action>)
    requires |s.pcs| == |cfg.txns| && AloneWithLocks(s, t) && s.pcs[t].Start?
    requires ValidRun(cfg, s, acts) && OnlyBy(acts, t) && !Unfinished(Run(cfg, s, acts).pcs[t])
    ensures Run(cfg, s, acts).pcs[t].Committed? <==> Applies(cfg.txns[t], s.db)
  {
    AloneRun(cfg, s.db, s, t, acts);
  }

  // In particular from the start, when nobody holds anything.
  lemma FirstAndAloneCommitsIffApplies(cfg: Config, db: Db, t: nat, acts: seq<Action>)
    requires t < |cfg.txns| && ValidRun(cfg, Init(cfg, db), acts) && OnlyBy(acts, t)
    requires !Unfinished(Run(cfg, Init(cfg, db), acts).pcs[t])
    ensures Run(cfg, Init(cfg, db), acts).pcs[t].Committed? <==> Applies(cfg.txns[t], db)
  {
    LeftAloneCommitsIffApplies(cfg, Init(cfg, db), t, acts);
  }

  // A completion is left to read, or has read, the row of a job that is held.
  ghost predicate HeldAhead(cfg: Config, s: State, t: nat)
    requires |s.pcs| == |cfg.txns| && t < |s.pcs|
  {
    && CopyOk(cfg.txns[t].kind, s.pcs[t])
    && (cfg.txns[t].kind.Complete? && s.pcs[t].Start? && cfg.txns[t].job in s.db.queue ==>
          HeldCopy(s.db.queue[cfg.txns[t].job]))
  }

  // And it does run to its end, where it leaves behind what it would alone on the tables.
  lemma {:induction false} LeftAloneFinishes(cfg: Config, db: Db, s: State, t: nat, now: Time)
    returns (acts: seq<Action>)
    requires |s.pcs| == |cfg.txns| && Alone(cfg, db, s, t)
    ensures ValidRun(cfg, s, acts) && OnlyBy(acts, t) && !Unfinished(Run(cfg, s, acts).pcs[t])
    ensures Unfinished(s.pcs[t]) && HeldAhead(cfg, s, t) ==>
      Run(cfg, s, acts).db == if Applies(cfg.txns[t], db) then Exec(cfg, db, Entry(t, now)) else db
    decreases StepsLeft(s.pcs[t])
  {
    acts := [];
    if Unfinished(s.pcs[t]) {
      var a := LoneStep(cfg, db, s, t, now);
      AloneStep(cfg, db, s, a);
      if HeldAhead(cfg, s, t) {
        LoneOutcome(cfg, db, s, a, now);
      }
      var rest := LeftAloneFinishes(cfg, db, Next(cfg, s, a), t, now);
      RunCons(cfg, s, a, rest);
      acts := [a] + rest;
      if !Unfinished(Next(cfg, s, a).pcs[t]) {
        FinishedForGood(cfg, Next(cfg, s, a), t, rest);
      }
    }
  }

  lemma LoneStep(cfg: Config, db: Db, s: State, t: nat, now: Time) returns (a: Action)
    requires |s.pcs| == |cfg.txns| && Alone(cfg, db, s, t) && Unfinished(s.pcs[t])
    ensures Enabled(cfg, s, a) && !a.Abort? && a.t == t && StepsLeft(Next(cfg, s, a).pcs[t]) < StepsLeft(s.pcs[t])
    ensures a.Commit? ==> a.now == now
  {
    if s.pcs[t].HasBoth? {
      a := Commit(t, now);
    } else if s.pcs[t].HasQueue? {
      a := if NeedsUrl(cfg.txns[t].kind, s.db, s.pcs[t].q) then LockUrl(t) else Commit(t, now);
    } else {
      a := if AtQueueLock(cfg, s, t) then LockQueue(t) else ReadRow(t);
    }
  }

  lemma LoneOutcome(cfg: Config, db: Db, s: State, a: Action, now: Time)
    requires |s.pcs| == |cfg.txns| && Enabled(cfg, s, a) && !a.Abort? && Alone(cfg, db, s, a.t)
    requires HeldAhead(cfg, s, a.t) && (a.Commit? ==> a.now == now)
    ensures var s' := Next(cfg, s, a);
      && (Unfinished(s'.pcs[a.t]) ==> HeldAhead(cfg, s', a.t))
      && (s'.pcs[a.t].Committed? ==> s'.db == Exec(cfg, db, Entry(a.t, now)))
  {
    if a.Commit? {
      CommitIsSerial(cfg, s, a.t, now);
    }
  }

  lemma {:induction false} FinishedForGood(cfg: Config, s: State, t: nat, acts: seq<Action>)
    requires |s.pcs| == |cfg.txns| && t < |s.pcs| && !Unfinished(s.pcs[t]) && ValidRun(cfg, s, acts) && OnlyBy(acts, t)
    ensures acts == []
  {
    assert acts != [] ==> acts[0].t == t;
  }

  // ---------- Deadlock freedom ----------

  predicate Waits(cfg: Config, s: State, t: nat, o: nat)
    requires |s.pcs| == |cfg.txns|
  {
    && t != o && t < |s.pcs|
    && (|| (AtQueueLock(cfg, s, t) && !cfg.txns[t].kind.Take? && HoldsQueue(cfg, s, o, cfg.txns[t].job))
        || (&& s.pcs[t].HasQueue? && NeedsUrl(cfg.txns[t].kind, s.db, s.pcs[t].q)
            && HoldsUrl(s, o, s.pcs[t].q.fkUrl.value)))
  }

  // A transaction that is at a lock and does not skip it is blocked exactly when it waits for another.
  lemma BlockedIffWaiting(cfg: Config, s: State, t: nat)
    requires |s.pcs| == |cfg.txns| && t < |s.pcs| && !cfg.txns[t].kind.Take?
    requires AtQueueLock(cfg, s, t) || (s.pcs[t].HasQueue? && NeedsUrl(cfg.txns[t].kind, s.db, s.pcs[t].q))
    ensures (exists o :: Waits(cfg, s, t, o)) <==>
      !Enabled(cfg, s, if AtQueueLock(cfg, s, t) then LockQueue(t) else LockUrl(t))
  {
    if AtQueueLock(cfg, s, t) {
      assert forall o :: Waits(cfg, s, t, o) <==> o != t && HoldsQueue(cfg, s, o, cfg.txns[t].job);
    } else {
      assert forall o :: Waits(cfg, s, t, o) <==> o != t && HoldsUrl(s, o, s.pcs[t].q.fkUrl.value);
    }
  }

  function LocksHeld(pc: Pc): nat {
    match pc
    case HasQueue(_, _) => 1
    case HasBoth(_, _, _) => 2
    case _ => 0
  }

  ghost predicate WaitPath(cfg: Config, s: State, path: seq<nat>)
    requires |s.pcs| == |cfg.txns|
  {
    forall i :: 0 <= i < |path| - 1 ==> Waits(cfg, s, path[i], path[i + 1])
  }

  // Along the waits-for graph the number of locks held strictly increases.
  lemma {:induction false} WaitsClimb(cfg: Config, s: State, path: seq<nat>)
    requires |s.pcs| == |cfg.txns| && WaitPath(cfg, s, path) && |path| >= 2
    ensures path[0] < |s.pcs| && path[|path| - 1] < |s.pcs|
    ensures LocksHeld(s.pcs[path[0]]) < LocksHeld(s.pcs[path[|path| - 1]])
  {
    assert Waits(cfg, s, path[0], path[1]);
    if |path| > 2 {
      var rest := path[1..];
      forall i | 0 <= i < |rest| - 1 ensures Waits(cfg, s, rest[i], rest[i + 1]) {
        assert Waits(cfg, s, path[i + 1], path[i + 2]);
      }
      WaitsClimb(cfg, s, rest);
    }
  }

  lemma WaitsForIsAcyclic(cfg: Config, s: State, path: seq<nat>)
    requires |s.pcs| == |cfg.txns| && WaitPath(cfg, s, path) && |path| >= 2
    ensures path[0] != path[|path| - 1]
  {
    WaitsClimb(cfg, s, path);
  }

  // While some transaction is unfinished, one can read, take a lock or commit.
  lemma SomeoneCanStep(cfg: Config, db0: Db, s: State, t: nat) returns (a: Action)
    requires Inv(cfg, db0, s) && t < |s.pcs| && Unfinished(s.pcs[t])
    ensures Enabled(cfg, s, a) && !a.Abort?
  {
    if o: nat :| o < |s.pcs| && s.pcs[o].HasBoth? {
      a := Commit(o, 0);
    } else if o: nat :| o < |s.pcs| && s.pcs[o].HasQueue? {
      a := if NeedsUrl(cfg.txns[o].kind, s.db, s.pcs[o].q) then LockUrl(o) else Commit(o, 0);
    } else {
      assert Fresh(cfg.txns[t], s.db, s.pcs[t]);
      a := if AtQueueLock(cfg, s, t) then LockQueue(t) else ReadRow(t);
    }
  }

  function StepsLeft(pc: Pc): nat {
    match pc
    case Start => 4
    case HasRead(_) => 3
    case HasQueue(_, _) => 2
    case HasBoth(_, _, _) => 1
    case _ => 0
  }

  lemma StepUsesBudget(cfg: Config, s: State, a: Action)
    requires |s.pcs| == |cfg.txns| && Enabled(cfg, s, a)
    ensures Sum(StepsLeft, Next(cfg, s, a).pcs) < Sum(StepsLeft, s.pcs)
  {
    SumUpdate(StepsLeft, s.pcs, a.t, Next(cfg, s, a).pcs[a.t]);
    assert Next(cfg, s, a).pcs == s.pcs[a.t := Next(cfg, s, a).pcs[a.t]];
  }

  // Every run is over after a bounded number of steps.
  lemma {:induction false} RunsAreBounded(cfg: Config, s: State, acts: seq<Action>)
    requires |s.pcs| == |cfg.txns| && ValidRun(cfg, s, acts)
    ensures |acts| <= Sum(StepsLeft, s.pcs)
    decreases |acts|
  {
    if acts != [] {
      StepUsesBudget(cfg, s, acts[0]);
      RunsAreBounded(cfg, Next(cfg, s, acts[0]), acts[1..]);
    }
  }

  lemma AllFinishWithinFourStepsEach(cfg: Config, db0: Db, acts: seq<Action>)
    requires ValidRun(cfg, Init(cfg, db0), acts)
    ensures |acts| <= 4 * |cfg.txns|
  {
    RunsAreBounded(cfg, Init(cfg, db0), acts);
    SumUniform(StepsLeft, Init(cfg, db0).pcs, 4);
  }
}
