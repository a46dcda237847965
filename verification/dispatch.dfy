/**
 The bounded, de-duplicating candidate buffer of infrastructure/browser/dispatch.py.

 `put` is split at its only await: PutBegin runs up to the first sleep of the
 backpressure loop, PutResume runs from one sleep to the next.
 */
module Dispatch {
  import opened Tables

  datatype Item = Ref(job: JobId) | Sentinel

  datatype BufferState = BufferState(queue: seq<Item>, seen: set<JobId>, closed: bool, maxsize: int)

  datatype PutOutcome = Accepted | Blocked | AlreadyPresent | Closed

  function EmptyBuffer(maxsize: int): BufferState {
    BufferState([], {}, false, maxsize)
  }

  function PutBeginOutcome(b: BufferState, job: JobId): PutOutcome {
    if b.closed then Closed
    else if job in b.seen then AlreadyPresent
    else if |b.queue| >= b.maxsize then Blocked
    else Accepted
  }

  function PutBegin(b: BufferState, job: JobId): BufferState {
    match PutBeginOutcome(b, job)
    case Accepted => b.(seen := b.seen + {job}, queue := b.queue + [Ref(job)])
    case Blocked => b.(seen := b.seen + {job})
    case _ => b
  }

  function PutResumeOutcome(b: BufferState, job: JobId): PutOutcome {
    if b.closed then Closed else if |b.queue| >= b.maxsize then Blocked else Accepted
  }

  function PutResume(b: BufferState, job: JobId): BufferState {
    match PutResumeOutcome(b, job)
    case Accepted => b.(queue := b.queue + [Ref(job)])
    case Closed => b.(seen := b.seen - {job})
    case _ => b
  }

  function Get(b: BufferState): BufferState
    requires b.queue != []
  {
    var b' := b.(queue := b.queue[1..]);
    if b.queue[0].Ref? then b'.(seen := b'.seen - {b.queue[0].job}) else b'
  }

  function Abort(b: BufferState): BufferState {
    b.(closed := true)
  }

  function Close(b: BufferState, n: nat): BufferState {
    b.(closed := true, queue := b.queue + seq(n, _ => Sentinel))
  }

  predicate IsExhausted(b: BufferState) {
    b.closed && b.queue == []
  }

  // ---------- What a buffer holds ----------

  function Refs(queue: seq<Item>): seq<JobId> {
    if queue == [] then [] else (if queue[0].Ref? then [queue[0].job] else []) + Refs(queue[1..])
  }

  function Sentinels(queue: seq<Item>): nat {
    if queue == [] then 0 else (if queue[0].Sentinel? then 1 else 0) + Sentinels(queue[1..])
  }

  lemma HoldingsOfConcat(p: seq<Item>, q: seq<Item>)
    ensures Refs(p + q) == Refs(p) + Refs(q)
    ensures Sentinels(p + q) == Sentinels(p) + Sentinels(q)
  {
    RefsOfConcat(p, q);
    SentinelsOfConcat(p, q);
  }

  lemma {:induction false} RefsOfConcat(p: seq<Item>, q: seq<Item>)
    ensures Refs(p + q) == Refs(p) + Refs(q)
  {
    if p == [] {
      assert p + q == q;
    } else {
      RefsOfConcat(p[1..], q);
      assert (p + q)[0] == p[0] && (p + q)[1..] == p[1..] + q;
    }
  }

  lemma {:induction false} SentinelsOfConcat(p: seq<Item>, q: seq<Item>)
    ensures Sentinels(p + q) == Sentinels(p) + Sentinels(q)
  {
    if p == [] {
      assert p + q == q;
    } else {
      SentinelsOfConcat(p[1..], q);
      assert (p + q)[0] == p[0] && (p + q)[1..] == p[1..] + q;
    }
  }

  lemma {:induction false} HoldingsOfSentinels(n: nat)
    ensures Refs(seq(n, _ => Sentinel)) == [] && Sentinels(seq(n, _ => Sentinel)) == n
  {
    if n > 0 {
      HoldingsOfSentinels(n - 1);
      assert seq(n, _ => Sentinel)[1..] == seq(n - 1, _ => Sentinel);
    }
  }

  // References first, then sentinels.
  ghost predicate RefsFirst(queue: seq<Item>) {
    forall i, j :: 0 <= i < j < |queue| && queue[i].Sentinel? ==> queue[j].Sentinel?
  }

  lemma {:induction false} OnlySentinels(queue: seq<Item>)
    requires forall i :: 0 <= i < |queue| ==> queue[i].Sentinel?
    ensures Refs(queue) == [] && Sentinels(queue) == |queue|
  {
    if queue != [] {
      OnlySentinels(queue[1..]);
    }
  }

  ghost predicate Distinct(ids: seq<JobId>) {
    forall i, j :: 0 <= i < j < |ids| ==> ids[i] != ids[j]
  }

  // `waiting` is the set of ids whose put is blocked by backpressure.
  ghost predicate BufferInv(b: BufferState, waiting: set<JobId>) {
    && RefsFirst(b.queue)
    && (Sentinels(b.queue) > 0 ==> b.closed)
    && Distinct(Refs(b.queue))
    && (forall x :: x in Refs(b.queue) ==> x !in waiting)
    && (forall x :: x in b.seen <==> x in Refs(b.queue) || x in waiting)
    && (Refs(b.queue) != [] ==> |Refs(b.queue)| <= b.maxsize)
  }

  lemma {:induction false} NoSentinels(queue: seq<Item>)
    requires Sentinels(queue) == 0
    ensures |Refs(queue)| == |queue| && forall i :: 0 <= i < |queue| ==> queue[i].Ref?
  {
    if queue != [] {
      NoSentinels(queue[1..]);
      assert forall i :: 0 < i < |queue| ==> queue[i] == queue[1..][i - 1];
    }
  }

  lemma AppendKeepsInv(b: BufferState, b': BufferState, job: JobId, waiting: set<JobId>)
    requires BufferInv(b, waiting + {job}) || (BufferInv(b, waiting) && job !in b.seen)
    requires !b.closed && |b.queue| < b.maxsize && job !in Refs(b.queue) && job !in waiting
    requires b' == b.(queue := b.queue + [Ref(job)], seen := b.seen + {job})
    ensures BufferInv(b', waiting)
  {
    NoSentinels(b.queue);
    HoldingsOfConcat(b.queue, [Ref(job)]);
    assert Refs([Ref(job)]) == [job] && Sentinels([Ref(job)]) == 0;
  }

  lemma PutBeginKeepsInv(b: BufferState, job: JobId, waiting: set<JobId>)
    requires BufferInv(b, waiting)
    ensures BufferInv(PutBegin(b, job), if PutBeginOutcome(b, job).Blocked? then waiting + {job} else waiting)
    ensures PutBeginOutcome(b, job).Blocked? ==> job !in waiting
  {
    if PutBeginOutcome(b, job).Accepted? {
      AppendKeepsInv(b, PutBegin(b, job), job, waiting);
    }
  }

  lemma PutResumeKeepsInv(b: BufferState, job: JobId, waiting: set<JobId>)
    requires BufferInv(b, waiting) && job in waiting
    ensures BufferInv(PutResume(b, job), if PutResumeOutcome(b, job).Blocked? then waiting else waiting - {job})
  {
    if PutResumeOutcome(b, job).Accepted? {
      assert waiting - {job} + {job} == waiting;
      assert b.seen + {job} == b.seen;
      AppendKeepsInv(b, PutResume(b, job), job, waiting - {job});
    }
  }

  lemma PutAddsNoSentinel(b: BufferState, job: JobId)
    ensures Sentinels(PutBegin(b, job).queue) == Sentinels(PutResume(b, job).queue) == Sentinels(b.queue)
  {
    HoldingsOfConcat(b.queue, [Ref(job)]);
    assert Sentinels([Ref(job)]) == 0;
  }

  lemma GetKeepsInv(b: BufferState, waiting: set<JobId>)
    requires BufferInv(b, waiting) && b.queue != []
    ensures BufferInv(Get(b), waiting)
    ensures b.queue[0].Sentinel? ==> Refs(b.queue) == []
  {
    var rest := b.queue[1..];
    if b.queue[0].Ref? {
      assert Refs(b.queue) == [b.queue[0].job] + Refs(rest);
      forall i | 0 <= i < |Refs(rest)| ensures Refs(rest)[i] == Refs(b.queue)[i + 1] {}
      assert b.queue[0].job == Refs(b.queue)[0];
      assert b.queue[0].job !in Refs(rest);
    } else {
      OnlySentinels(b.queue);
      OnlySentinels(rest);
    }
  }

  lemma CloseKeepsInv(b: BufferState, n: nat, waiting: set<JobId>)
    requires BufferInv(b, waiting)
    ensures BufferInv(Close(b, n), waiting) && BufferInv(Abort(b), waiting)
  {
    HoldingsOfConcat(b.queue, seq(n, _ => Sentinel));
    HoldingsOfSentinels(n);
  }

  // ---------- Any number of concurrent callers ----------

  datatype Action = BeginPut(job: JobId) | ResumePut(job: JobId) | GetNext | AbortBuffer | CloseBuffer(n: nat)

  datatype Shared = Shared(b: BufferState, waiting: set<JobId>)

  predicate Enabled(s: Shared, a: Action) {
    match a
    case ResumePut(job) => job in s.waiting
    case GetNext => s.b.queue != []
    case _ => true
  }

  function Next(s: Shared, a: Action): Shared
    requires Enabled(s, a)
  {
    match a
    case BeginPut(job) =>
      Shared(PutBegin(s.b, job), if PutBeginOutcome(s.b, job).Blocked? then s.waiting + {job} else s.waiting)
    case ResumePut(job) =>
      Shared(PutResume(s.b, job), if PutResumeOutcome(s.b, job).Blocked? then s.waiting else s.waiting - {job})
    case GetNext => s.(b := Get(s.b))
    case AbortBuffer => s.(b := Abort(s.b))
    case CloseBuffer(n) => s.(b := Close(s.b, n))
  }

  ghost predicate ValidRun(s: Shared, acts: seq<Action>)
    decreases |acts|
  {
    acts != [] ==> Enabled(s, acts[0]) && ValidRun(Next(s, acts[0]), acts[1..])
  }

  ghost function Run(s: Shared, acts: seq<Action>): Shared
    requires ValidRun(s, acts)
    decreases |acts|
  {
    if acts == [] then s else Run(Next(s, acts[0]), acts[1..])
  }

  lemma StepKeepsInv(s: Shared, a: Action)
    requires BufferInv(s.b, s.waiting) && Enabled(s, a)
    ensures BufferInv(Next(s, a).b, Next(s, a).waiting)
  {
    match a {
      case BeginPut(job) => PutBeginKeepsInv(s.b, job, s.waiting);
      case ResumePut(job) => PutResumeKeepsInv(s.b, job, s.waiting);
      case GetNext => GetKeepsInv(s.b, s.waiting);
      case AbortBuffer => CloseKeepsInv(s.b, 0, s.waiting);
      case CloseBuffer(n) => CloseKeepsInv(s.b, n, s.waiting);
    }
  }

  // Under any interleaving of puts, gets, abort and close: `seen` is exactly the queued ids and
  // the ids reserved by blocked puts, no id is queued twice, references never exceed `maxsize`
  // and always precede the sentinels.
  lemma {:induction false} BufferAlways(s: Shared, acts: seq<Action>)
    requires BufferInv(s.b, s.waiting) && ValidRun(s, acts)
    ensures BufferInv(Run(s, acts).b, Run(s, acts).waiting)
    decreases |acts|
  {
    if acts != [] {
      StepKeepsInv(s, acts[0]);
      BufferAlways(Next(s, acts[0]), acts[1..]);
    }
  }

  // ---------- Nothing lost, nothing invented ----------

  // When a put succeeds: the buffer is open, has room, and does not know the id yet; a put that has
  // waited holds the id already.
  predicate Admits(s: Shared, a: Action) {
    || (a.BeginPut? && !s.b.closed && a.job !in Refs(s.b.queue) && a.job !in s.waiting && |s.b.queue| < s.b.maxsize)
    || (a.ResumePut? && !s.b.closed && |s.b.queue| < s.b.maxsize)
  }

  lemma PutOutcomes(s: Shared, job: JobId)
    requires BufferInv(s.b, s.waiting)
    ensures PutBeginOutcome(s.b, job).Accepted? <==> Admits(s, BeginPut(job))
    ensures PutBeginOutcome(s.b, job).Closed? <==> s.b.closed
    ensures PutBeginOutcome(s.b, job).AlreadyPresent? <==> !s.b.closed && (job in Refs(s.b.queue) || job in s.waiting)
    ensures PutResumeOutcome(s.b, job).Accepted? <==> Admits(s, ResumePut(job))
    ensures PutResumeOutcome(s.b, job).Closed? <==> s.b.closed
    ensures !PutResumeOutcome(s.b, job).AlreadyPresent?
  {
  }

  // The ids accepted in a run, the ids taken out of it, and the sentinels put in and taken out.
  ghost function AcceptedIn(s: Shared, acts: seq<Action>): seq<JobId>
    requires ValidRun(s, acts)
    decreases |acts|
  {
    if acts == [] then []
    else (if Admits(s, acts[0]) then [acts[0].job] else []) + AcceptedIn(Next(s, acts[0]), acts[1..])
  }

  function Got(s: Shared, a: Action): seq<JobId> {
    if a.GetNext? && s.b.queue != [] && s.b.queue[0].Ref? then [s.b.queue[0].job] else []
  }

  ghost function TakenIn(s: Shared, acts: seq<Action>): seq<JobId>
    requires ValidRun(s, acts)
    decreases |acts|
  {
    if acts == [] then [] else Got(s, acts[0]) + TakenIn(Next(s, acts[0]), acts[1..])
  }

  ghost function SentinelsTaken(s: Shared, acts: seq<Action>): nat
    requires ValidRun(s, acts)
    decreases |acts|
  {
    if acts == [] then 0
    else (if acts[0].GetNext? && s.b.queue[0].Sentinel? then 1 else 0) + SentinelsTaken(Next(s, acts[0]), acts[1..])
  }

  ghost function Sent(acts: seq<Action>): nat {
    if acts == [] then 0 else (if acts[0].CloseBuffer? then acts[0].n else 0) + Sent(acts[1..])
  }

  lemma AccountStep(s: Shared, a: Action)
    requires BufferInv(s.b, s.waiting) && Enabled(s, a)
    ensures var s' := Next(s, a);
      && Refs(s'.b.queue) ==
         (if a.GetNext? then Refs(s.b.queue[1..]) else Refs(s.b.queue)) + (if Admits(s, a) then [a.job] else [])
      && Sentinels(s'.b.queue) ==
         (if a.GetNext? then Sentinels(s.b.queue[1..]) else Sentinels(s.b.queue)) + (if a.CloseBuffer? then a.n else 0)
  {
    if a.BeginPut? || a.ResumePut? {
      HoldingsOfConcat(s.b.queue, [Ref(a.job)]);
      assert Refs([Ref(a.job)]) == [a.job] && Sentinels([Ref(a.job)]) == 0;
    } else if a.CloseBuffer? {
      HoldingsOfConcat(s.b.queue, seq(a.n, _ => Sentinel));
      HoldingsOfSentinels(a.n);
    }
  }

  // One step of the account: `first` leaves at the front, `got` enters at the back.
  lemma Balance(first: seq<JobId>, tail: seq<JobId>, got: seq<JobId>, later: seq<JobId>, taken: seq<JobId>,
                end: seq<JobId>)
    requires (tail + got) + later == taken + end
    ensures (first + tail) + (got + later) == (first + taken) + end
  {
    assert (first + tail) + (got + later) == first + ((tail + got) + later);
  }

  // First in, first out: over every run, what was queued and then what was accepted, in that order, is
  // what was taken out and then what is still queued.
  lemma {:induction false} FirstInFirstOut(s: Shared, acts: seq<Action>)
    requires BufferInv(s.b, s.waiting) && ValidRun(s, acts)
    ensures Refs(s.b.queue) + AcceptedIn(s, acts) == TakenIn(s, acts) + Refs(Run(s, acts).b.queue)
    decreases |acts|
  {
    if acts != [] {
      var a := acts[0];
      var s1 := Next(s, a);
      StepKeepsInv(s, a);
      AccountStep(s, a);
      FirstInFirstOut(s1, acts[1..]);
      var tail := if a.GetNext? then Refs(s.b.queue[1..]) else Refs(s.b.queue);
      var got := if Admits(s, a) then [a.job] else [];
      FrontOf(s, a);
      var end := Refs(Run(s1, acts[1..]).b.queue);
      Balance(Got(s, a), tail, got, AcceptedIn(s1, acts[1..]), TakenIn(s1, acts[1..]), end);
    }
  }

  lemma FrontOf(s: Shared, a: Action)
    requires Enabled(s, a)
    ensures Refs(s.b.queue) == Got(s, a) + if a.GetNext? then Refs(s.b.queue[1..]) else Refs(s.b.queue)
  {
  }

  // And every sentinel sent is taken once or still queued.
  lemma {:induction false} SentinelsAccounted(s: Shared, acts: seq<Action>)
    requires BufferInv(s.b, s.waiting) && ValidRun(s, acts)
    ensures Sentinels(s.b.queue) + Sent(acts) == SentinelsTaken(s, acts) + Sentinels(Run(s, acts).b.queue)
    decreases |acts|
  {
    if acts != [] {
      StepKeepsInv(s, acts[0]);
      AccountStep(s, acts[0]);
      SentinelsAccounted(Next(s, acts[0]), acts[1..]);
    }
  }

  // Any call can be made at any time, except that get() waits for an item and only a waiting put wakes.
  lemma CallsEnabled(s: Shared, a: Action)
    ensures Enabled(s, a) <==> (a.GetNext? ==> s.b.queue != []) && (a.ResumePut? ==> a.job in s.waiting)
  {
  }

  // The reservations: a put that has to wait holds its id until it is admitted, or until it finds the
  // buffer closed; nothing else gives an id up but taking it out.
  lemma WaitingStep(s: Shared, a: Action)
    requires BufferInv(s.b, s.waiting) && Enabled(s, a)
    ensures var s' := Next(s, a);
      s'.waiting ==
        if a.BeginPut? && !s.b.closed && a.job !in Refs(s.b.queue) && |s.b.queue| >= s.b.maxsize
        then s.waiting + {a.job}
        else if a.ResumePut? && (s.b.closed || |s.b.queue| < s.b.maxsize) then s.waiting - {a.job}
        else s.waiting
    ensures Next(s, a).b.closed <==> s.b.closed || a.AbortBuffer? || a.CloseBuffer?
    ensures Next(s, a).b.maxsize == s.b.maxsize
  {
  }

  // ---------- The buffer object ----------

  class BoundedCandidateBuffer {
    const maxsize: int
    var queue: seq<Item>
    var seen: set<JobId>
    var closed: bool

    constructor (maxsize: int)
      ensures State() == EmptyBuffer(maxsize) && BufferInv(State(), {})
    {
      this.maxsize := maxsize;
      queue, seen, closed := [], {}, false;
    }

    ghost function State(): BufferState
      reads this
    {
      BufferState(queue, seen, closed, maxsize)
    }

    method BeginPut(job: JobId, ghost waiting: set<JobId>) returns (outcome: PutOutcome)
      requires BufferInv(State(), waiting)
      modifies this
      ensures outcome == PutBeginOutcome(old(State()), job) && State() == PutBegin(old(State()), job)
      ensures BufferInv(State(), if outcome.Blocked? then waiting + {job} else waiting)
    {
      PutBeginKeepsInv(State(), job, waiting);
      if closed { return Closed; }
      if job in seen { return AlreadyPresent; }
      seen := seen + {job};
      if |queue| >= maxsize { return Blocked; }
      queue := queue + [Ref(job)];
      return Accepted;
    }

    method ResumePut(job: JobId, ghost waiting: set<JobId>) returns (outcome: PutOutcome)
      requires BufferInv(State(), waiting) && job in waiting
      modifies this
      ensures outcome == PutResumeOutcome(old(State()), job) && State() == PutResume(old(State()), job)
      ensures BufferInv(State(), if outcome.Blocked? then waiting else waiting - {job})
    {
      PutResumeKeepsInv(State(), job, waiting);
      if |queue| >= maxsize && !closed { return Blocked; }
      if !closed {
        queue := queue + [Ref(job)];
        return Accepted;
      }
      seen := seen - {job};
      return Closed;
    }

    method GetNext(ghost waiting: set<JobId>) returns (item: Item)
      requires BufferInv(State(), waiting) && queue != []
      modifies this
      ensures item == old(queue)[0] && State() == Get(old(State()))
      ensures BufferInv(State(), waiting)
    {
      GetKeepsInv(State(), waiting);
      item := queue[0];
      queue := queue[1..];
      if item.Ref? {
        seen := seen - {item.job};
      }
    }

    method AbortBuffer()
      modifies this`closed
      ensures State() == Abort(old(State()))
    {
      closed := true;
    }

    method CloseBuffer(n: nat, ghost waiting: set<JobId>)
      requires BufferInv(State(), waiting)
      modifies this
      ensures State() == Close(old(State()), n)
      ensures BufferInv(State(), waiting)
      ensures Sentinels(queue) == old(Sentinels(queue)) + n && Refs(queue) == old(Refs(queue))
    {
      CloseKeepsInv(State(), n, waiting);
      HoldingsOfConcat(queue, seq(n, _ => Sentinel));
      HoldingsOfSentinels(n);
      closed := true;
      for i := 0 to n
        invariant seen == old(seen) && closed && queue == old(queue) + seq(i, _ => Sentinel)
      {
        queue := queue + [Sentinel];
      }
    }
  }
}
