/**
 The position cache as the jobs in flight share it. Each job runs in its own transaction; a job that
 misses the cache awaits an upsert, and only then writes the cache. A row that one transaction has
 inserted, and not committed, makes the upsert of the same code in another wait.
 */
module SharedCache {
  import opened Tables

  datatype Pc = Idle | Asked(code: string) | Got(code: string, id: int)

  // `own` are the rows its transaction has inserted, `uses` the ids its rows refer to.
  datatype Job = Job(pc: Pc, own: map<string, int>, uses: set<int>)

  // `table` are the committed rows. `issued` and `lost` record the ids ever given out, with their
  // codes, and those whose inserting transaction was rolled back.
  datatype State = State(
    table: map<string, int>, next: int, cache: map<string, int>, jobs: seq<Job>,
    issued: map<int, string>, lost: set<int>)

  datatype Action = Ask(j: nat, code: string) | Upsert(j: nat) | Store(j: nat) | Commit(j: nat) | RollBack(j: nat)

  const NEW_JOB := Job(Idle, map[], {})

  // Another transaction's insert of the code is undecided.
  predicate InsertedElsewhere(s: State, j: nat, code: string) {
    exists k :: 0 <= k < |s.jobs| && k != j && code in s.jobs[k].own
  }

  predicate Enabled(s: State, a: Action) {
    && a.j < |s.jobs|
    && var job := s.jobs[a.j];
       match a
       case Ask(_, _) => job.pc.Idle?
       case Upsert(j) => job.pc.Asked? && !InsertedElsewhere(s, j, job.pc.code)
       case Store(_) => job.pc.Got?
       // the foreign keys of its rows hold
       case Commit(_) => job.pc.Idle? && job.uses <= s.table.Values + job.own.Values
       case RollBack(_) => true
  }

  function Next(s: State, a: Action): State
    requires Enabled(s, a)
  {
    var job := s.jobs[a.j];
    match a
    case Ask(j, code) =>
      var job' := if code in s.cache then job.(uses := job.uses + {s.cache[code]}) else job.(pc := Asked(code));
      s.(jobs := s.jobs[j := job'])
    case Upsert(j) =>
      var code := job.pc.code;
      if code in s.table then s.(next := s.next + 1, jobs := s.jobs[j := job.(pc := Got(code, s.table[code]))])
      else if code in job.own then s.(next := s.next + 1, jobs := s.jobs[j := job.(pc := Got(code, job.own[code]))])
      else
        s.(next := s.next + 1, issued := s.issued[s.next := code],
           jobs := s.jobs[j := job.(pc := Got(code, s.next), own := job.own[code := s.next])])
    case Store(j) =>
      s.(cache := s.cache[job.pc.code := job.pc.id],
         jobs := s.jobs[j := job.(pc := Idle, uses := job.uses + {job.pc.id})])
    case Commit(j) => s.(table := s.table + job.own, jobs := s.jobs[j := NEW_JOB])
    case RollBack(j) => s.(lost := s.lost + job.own.Values, jobs := s.jobs[j := NEW_JOB])
  }

  // ---------- Invariant ----------

  predicate StandsFor(s: State, id: int, code: string) {
    id in s.issued && s.issued[id] == code
  }

  ghost predicate TableOk(s: State) {
    && (forall id :: id in s.issued ==> id < s.next)
    && (forall code :: code in s.table ==> StandsFor(s, s.table[code], code) && s.table[code] !in s.lost)
    && s.lost <= s.issued.Keys
  }

  ghost predicate RowsOk(s: State, own: map<string, int>) {
    forall code :: code in own ==> StandsFor(s, own[code], code) && own[code] !in s.lost && code !in s.table
  }

  ghost predicate OwnOk(s: State) {
    && (forall j :: 0 <= j < |s.jobs| ==> RowsOk(s, s.jobs[j].own))
    && (forall j, k, code ::
          0 <= j < |s.jobs| && 0 <= k < |s.jobs| && code in s.jobs[j].own && code in s.jobs[k].own ==> j == k)
  }

  ghost predicate CacheOk(s: State) {
    && (forall code :: code in s.cache ==> StandsFor(s, s.cache[code], code))
    && (forall j :: 0 <= j < |s.jobs| && s.jobs[j].pc.Got? ==> StandsFor(s, s.jobs[j].pc.id, s.jobs[j].pc.code))
  }

  predicate Committed(s: State, id: int) {
    id in s.issued && s.issued[id] in s.table && s.table[s.issued[id]] == id
  }

  predicate OwnedBy(s: State, j: nat, id: int)
    requires j < |s.jobs|
  {
    id in s.issued && s.issued[id] in s.jobs[j].own && s.jobs[j].own[s.issued[id]] == id
  }

  predicate Undecided(s: State, id: int) {
    exists j :: 0 <= j < |s.jobs| && OwnedBy(s, j, id)
  }

  predicate Decided(s: State, id: int) {
    Committed(s, id) || Undecided(s, id) || id in s.lost
  }

  ghost predicate Inv(s: State) {
    && TableOk(s) && OwnOk(s) && CacheOk(s)
    && (forall id :: id in s.issued ==> Decided(s, id))
  }

  // A process starts with an empty cache and no transaction open.
  ghost predicate Starts(s: State) {
    && s.cache == map[] && s.lost == {} && s.issued.Keys == s.table.Values
    && (forall code :: code in s.table ==> s.table[code] in s.table.Values && s.issued[s.table[code]] == code)
    && (forall id :: id in s.issued ==> id < s.next)
    && (forall j :: 0 <= j < |s.jobs| ==> s.jobs[j] == NEW_JOB)
  }

  lemma StartsInv(s: State)
    requires Starts(s)
    ensures Inv(s)
  {
    forall id | id in s.issued ensures Committed(s, id) {
      var code :| code in s.table && s.table[code] == id;
    }
  }

  lemma OwnedRows(s: State, own: map<string, int>)
    requires RowsOk(s, own)
    ensures own.Values <= s.issued.Keys && own.Values !! s.lost
    ensures forall id :: id in own.Values ==> s.issued[id] in own && own[s.issued[id]] == id
  {
    forall id | id in own.Values
      ensures id in s.issued && id !in s.lost && s.issued[id] in own && own[s.issued[id]] == id
    {
      var code :| code in own && own[code] == id;
      assert StandsFor(s, own[code], code);
    }
  }

  lemma TableOkKept(s: State, a: Action)
    requires TableOk(s) && OwnOk(s) && Enabled(s, a)
    ensures TableOk(Next(s, a))
  {
    var s' := Next(s, a);
    OwnedRows(s, s.jobs[a.j].own);
    forall code | code in s'.table ensures StandsFor(s', s'.table[code], code) && s'.table[code] !in s'.lost {
      assert code in s.table ==> StandsFor(s, s.table[code], code) && s.table[code] !in s.lost;
      if a.RollBack? {
        assert forall id :: id in s.jobs[a.j].own.Values ==> s.issued[id] !in s.table;
      }
    }
  }

  // The rows of one job after a step of another, or of its own.
  lemma OwnRowsKept(s: State, a: Action, j: nat)
    requires TableOk(s) && OwnOk(s) && Enabled(s, a) && j < |s.jobs|
    ensures RowsOk(Next(s, a), Next(s, a).jobs[j].own)
  {
    var s' := Next(s, a);
    assert RowsOk(s, s.jobs[j].own);
    forall code | code in s'.jobs[j].own
      ensures StandsFor(s', s'.jobs[j].own[code], code) && s'.jobs[j].own[code] !in s'.lost && code !in s'.table
    {
      if code in s.jobs[j].own {
        OthersRow(s, a, j, code);
      }
    }
  }

  // A row of a job's open transaction is neither committed nor rolled back by another's.
  lemma OthersRow(s: State, a: Action, j: nat, code: string)
    requires TableOk(s) && OwnOk(s) && Enabled(s, a) && j < |s.jobs| && code in s.jobs[j].own
    requires j == a.j ==> !a.Commit? && !a.RollBack?
    ensures var s' := Next(s, a); var id := s.jobs[j].own[code];
      StandsFor(s', id, code) && id !in s'.lost && code !in s'.table
  {
    assert RowsOk(s, s.jobs[j].own) && RowsOk(s, s.jobs[a.j].own);
    OwnedRows(s, s.jobs[a.j].own);
    assert StandsFor(s, s.jobs[j].own[code], code);
  }

  lemma OwnersDisjoint(s: State, a: Action, j: nat, k: nat, code: string)
    requires OwnOk(s) && Enabled(s, a) && j < |s.jobs| && k < |s.jobs|
    requires code in Next(s, a).jobs[j].own && code in Next(s, a).jobs[k].own
    ensures j == k
  {
    if code in s.jobs[j].own && code in s.jobs[k].own {
      assert j == k;
    } else {
      assert a.Upsert? && code == s.jobs[a.j].pc.code;
    }
  }

  lemma OwnOkKept(s: State, a: Action)
    requires Inv(s) && Enabled(s, a)
    ensures OwnOk(Next(s, a))
  {
    forall j | 0 <= j < |s.jobs| ensures RowsOk(Next(s, a), Next(s, a).jobs[j].own) {
      OwnRowsKept(s, a, j);
    }
    forall j, k, code | 0 <= j < |s.jobs| && 0 <= k < |s.jobs|
      && code in Next(s, a).jobs[j].own && code in Next(s, a).jobs[k].own
      ensures j == k
    {
      OwnersDisjoint(s, a, j, k, code);
    }
  }

  lemma CacheOkKept(s: State, a: Action)
    requires TableOk(s) && OwnOk(s) && CacheOk(s) && Enabled(s, a)
    ensures CacheOk(Next(s, a))
  {
  }

  lemma DecidedKept(s: State, a: Action, id: int)
    requires Inv(s) && Enabled(s, a) && id in Next(s, a).issued
    ensures Decided(Next(s, a), id)
  {
    var s' := Next(s, a);
    if id !in s.issued {
      assert OwnedBy(s', a.j, id);
    } else if j :| 0 <= j < |s.jobs| && OwnedBy(s, j, id) {
      OwnerStep(s, a, j, id);
    } else {
      assert Decided(s, id);
    }
  }

  // An open transaction's row stays its own until the transaction ends, one way or the other.
  lemma OwnerStep(s: State, a: Action, j: nat, id: int)
    requires TableOk(s) && OwnOk(s) && Enabled(s, a) && j < |s.jobs| && OwnedBy(s, j, id)
    ensures Decided(Next(s, a), id)
  {
    var s' := Next(s, a);
    assert RowsOk(s, s.jobs[j].own);
    if a.j == j && a.Commit? {
      assert Committed(s', id);
    } else if a.j == j && a.RollBack? {
      assert id in s.jobs[j].own.Values;
    } else {
      assert OwnedBy(s', j, id);
    }
  }

  lemma StepKeepsInv(s: State, a: Action)
    requires Inv(s) && Enabled(s, a)
    ensures Inv(Next(s, a))
  {
    TableOkKept(s, a);
    OwnOkKept(s, a);
    CacheOkKept(s, a);
    forall id | id in Next(s, a).issued
      ensures Decided(Next(s, a), id)
    {
      DecidedKept(s, a, id);
    }
  }

  ghost predicate ValidRun(s: State, acts: seq<Action>)
    decreases |acts|
  {
    acts != [] ==> Enabled(s, acts[0]) && ValidRun(Next(s, acts[0]), acts[1..])
  }

  ghost function Run(s: State, acts: seq<Action>): State
    requires ValidRun(s, acts)
    decreases |acts|
  {
    if acts == [] then s else Run(Next(s, acts[0]), acts[1..])
  }

  lemma {:induction false} RunKeepsInv(s: State, acts: seq<Action>)
    requires Inv(s) && ValidRun(s, acts)
    ensures Inv(Run(s, acts))
    decreases |acts|
  {
    if acts != [] {
      StepKeepsInv(s, acts[0]);
      RunKeepsInv(Next(s, acts[0]), acts[1..]);
    }
  }

  // ---------- One job at work ----------

  // The id that the database gives for a code in the transaction of job `j`.
  function IdFor(s: State, j: nat, code: string): int
    requires j < |s.jobs|
  {
    if code in s.table then s.table[code] else if code in s.jobs[j].own then s.jobs[j].own[code] else s.next
  }

  // A miss, left alone: the code gets its committed id, or the one its own transaction has inserted, or
  // the next of the sequence, which advances in any case; cache and job hold it then.
  lemma MissResolves(s: State, j: nat, code: string)
    requires Enabled(s, Ask(j, code)) && code !in s.cache && !InsertedElsewhere(s, j, code)
    ensures var s1 := Next(s, Ask(j, code)); Enabled(s1, Upsert(j)) && Enabled(Next(s1, Upsert(j)), Store(j))
    ensures var s' := Next(Next(Next(s, Ask(j, code)), Upsert(j)), Store(j)); var id := IdFor(s, j, code);
      && s'.cache == s.cache[code := id] && s'.next == s.next + 1 && s'.table == s.table && s'.lost == s.lost
      && |s'.jobs| == |s.jobs| && s'.jobs[j].pc == Idle && s'.jobs[j].uses == s.jobs[j].uses + {id}
      && s'.jobs[j].own == (if code in s.table then s.jobs[j].own else s.jobs[j].own[code := id])
  {
    var s1 := Next(s, Ask(j, code));
    assert forall k :: 0 <= k < |s.jobs| && k != j ==> s1.jobs[k] == s.jobs[k];
  }

  // A hit costs nothing and uses what the cache says.
  lemma HitResolves(s: State, j: nat, code: string)
    requires Enabled(s, Ask(j, code)) && code in s.cache
    ensures Next(s, Ask(j, code)) ==
            s.(jobs := s.jobs[j := s.jobs[j].(uses := s.jobs[j].uses + {s.cache[code]})])
  {
  }

  // A job between upserts, all of whose ids are committed or its own, can commit, and its rows are
  // committed then.
  lemma CommitsItsRows(s: State, j: nat)
    requires j < |s.jobs| && s.jobs[j].pc.Idle?
    requires forall id :: id in s.jobs[j].uses ==> id in s.table.Values || id in s.jobs[j].own.Values
    ensures Enabled(s, Commit(j))
    ensures Next(s, Commit(j)) == s.(table := s.table + s.jobs[j].own, jobs := s.jobs[j := NEW_JOB])
  {
    forall id | id in s.jobs[j].uses ensures id in s.table.Values + s.jobs[j].own.Values {
      assert id in s.table.Values || id in s.jobs[j].own.Values;
    }
  }

  // A rollback is always possible and leaves table and cache as they were.
  lemma RollsBackItsRows(s: State, j: nat)
    requires j < |s.jobs|
    ensures Enabled(s, RollBack(j))
    ensures Next(s, RollBack(j)) == s.(lost := s.lost + s.jobs[j].own.Values, jobs := s.jobs[j := NEW_JOB])
  {
  }

  // ---------- What a cached id is worth ----------

  // Over every interleaving: a cached id is the committed id of its code exactly when the transaction
  // that inserted its row is over and was not rolled back; whatever it is, it stands for no other code.
  lemma CachedIsCommittedIff(s: State, acts: seq<Action>, code: string)
    requires Inv(s) && ValidRun(s, acts) && code in Run(s, acts).cache
    ensures var s' := Run(s, acts); var id := s'.cache[code];
      && ((code in s'.table && s'.table[code] == id) <==> !Undecided(s', id) && id !in s'.lost)
      && (forall other :: other in s'.table && s'.table[other] == id ==> other == code)
  {
    RunKeepsInv(s, acts);
    var s' := Run(s, acts);
    var id := s'.cache[code];
    if j :| 0 <= j < |s'.jobs| && OwnedBy(s', j, id) {
      assert code in s'.jobs[j].own;
    }
  }

  // Between jobs, then, the cache agrees with the table exactly when no cached id was rolled back.
  lemma QuietCacheAgreesIff(s: State, acts: seq<Action>)
    requires Inv(s) && ValidRun(s, acts)
    requires forall j :: 0 <= j < |Run(s, acts).jobs| ==> Run(s, acts).jobs[j].own == map[]
    ensures var s' := Run(s, acts);
      (forall code :: code in s'.cache ==> code in s'.table && s'.table[code] == s'.cache[code])
      <==> (forall code :: code in s'.cache ==> s'.cache[code] !in s'.lost)
  {
    var s' := Run(s, acts);
    forall code | code in s'.cache
      ensures (code in s'.table && s'.table[code] == s'.cache[code]) <==> s'.cache[code] !in s'.lost
    {
      CachedIsCommittedIff(s, acts, code);
    }
  }

  // ---------- A rolled-back entry stays ----------

  // The cached id of `code` was rolled back, and no upsert of the code is on its way to replace it.
  ghost predicate Poisoned(s: State, code: string) {
    && code in s.cache && s.cache[code] in s.lost
    && (forall j :: 0 <= j < |s.jobs| && !s.jobs[j].pc.Idle? ==> s.jobs[j].pc.code != code)
  }

  lemma PoisonStep(s: State, a: Action, code: string)
    requires Poisoned(s, code) && Enabled(s, a)
    ensures Poisoned(Next(s, a), code) && Next(s, a).cache[code] == s.cache[code] && s.lost <= Next(s, a).lost
  {
  }

  lemma {:induction false} PoisonedForever(s: State, acts: seq<Action>, code: string)
    requires Poisoned(s, code) && ValidRun(s, acts)
    ensures Poisoned(Run(s, acts), code) && Run(s, acts).cache[code] == s.cache[code]
    decreases |acts|
  {
    if acts != [] {
      PoisonStep(s, acts[0], code);
      PoisonedForever(Next(s, acts[0]), acts[1..], code);
    }
  }

  lemma {:induction false} LostUseStays(s: State, acts: seq<Action>, j: nat, id: int)
    requires Inv(s) && ValidRun(s, acts) && j < |s.jobs| && id in s.jobs[j].uses && id in s.lost
    requires forall i :: 0 <= i < |acts| ==> acts[i] != RollBack(j)
    ensures var s' := Run(s, acts); j < |s'.jobs| && id in s'.jobs[j].uses && id in s'.lost && Inv(s')
    decreases |acts|
  {
    if acts != [] {
      StepKeepsInv(s, acts[0]);
      LostUseCannotCommit(s, j, id);
      LostUseStays(Next(s, acts[0]), acts[1..], j, id);
    }
  }

  lemma LostUseCannotCommit(s: State, j: nat, id: int)
    requires Inv(s) && j < |s.jobs| && id in s.jobs[j].uses && id in s.lost
    ensures !Enabled(s, Commit(j))
  {
    assert RowsOk(s, s.jobs[j].own);
    OwnedRows(s, s.jobs[j].own);
    forall code | code in s.table ensures s.table[code] != id {
      assert s.table[code] !in s.lost;
    }
    assert id !in s.table.Values + s.jobs[j].own.Values;
  }

  // So every later job that needs this position, as long as the process runs, gets the lost id and can
  // never commit; all it can do is roll back.
  lemma PoisonedJobsNeverCommit(s: State, before: seq<Action>, j: nat, code: string, after: seq<Action>)
    requires Inv(s) && Poisoned(s, code) && ValidRun(s, before) && Enabled(Run(s, before), Ask(j, code))
    requires var s1 := Next(Run(s, before), Ask(j, code));
      ValidRun(s1, after) && forall i :: 0 <= i < |after| ==> after[i] != RollBack(j)
    ensures !Enabled(Run(Next(Run(s, before), Ask(j, code)), after), Commit(j))
  {
    RunKeepsInv(s, before);
    PoisonedForever(s, before, code);
    var s0 := Run(s, before);
    var s1 := Next(s0, Ask(j, code));
    StepKeepsInv(s0, Ask(j, code));
    LostUseStays(s1, after, j, s0.cache[code]);
    LostUseCannotCommit(Run(s1, after), j, s0.cache[code]);
  }

  // It takes one job that inserts a new position and fails.
  lemma APoisonedCode(code: string, n: nat) returns (acts: seq<Action>)
    requires n >= 1
    ensures var s0 := State(map[], 1, map[], seq(n, _ => NEW_JOB), map[], {});
      Starts(s0) && ValidRun(s0, acts) && Poisoned(Run(s0, acts), code)
  {
    acts := [Ask(0, code), Upsert(0), Store(0), RollBack(0)];
    var s0 := State(map[], 1, map[], seq(n, _ => NEW_JOB), map[], {});
    var s1 := Next(s0, Ask(0, code));
    var s2 := Next(s1, Upsert(0));
    assert s2.jobs[0].own == map[code := 1];
    var s3 := Next(s2, Store(0));
    var s4 := Next(s3, RollBack(0));
    assert s4.cache == map[code := 1] && 1 in s3.jobs[0].own.Values;
    RunCons(s3, RollBack(0), []);
    RunCons(s2, Store(0), [RollBack(0)]);
    RunCons(s1, Upsert(0), [Store(0), RollBack(0)]);
    RunCons(s0, Ask(0, code), [Upsert(0), Store(0), RollBack(0)]);
    assert [RollBack(0)] + [] == [RollBack(0)] && [Store(0)] + [RollBack(0)] == [Store(0), RollBack(0)];
    assert [Upsert(0)] + [Store(0), RollBack(0)] == [Upsert(0), Store(0), RollBack(0)];
    assert [Ask(0, code)] + [Upsert(0), Store(0), RollBack(0)] == acts;
  }

  lemma RunCons(s: State, a: Action, acts: seq<Action>)
    requires Enabled(s, a) && ValidRun(Next(s, a), acts)
    ensures ValidRun(s, [a] + acts) && Run(s, [a] + acts) == Run(Next(s, a), acts)
  {
    assert ([a] + acts)[1..] == acts;
  }
}
