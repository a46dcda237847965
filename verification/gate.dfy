/**
 The rate-limit gate of infrastructure/browser/gate.py and its recovery tasks.

 A step is what the event loop runs between two awaits. Cancelling a task only sets
 a request; it ends, without running further, the next time it is resumed.
 */
module Gate {
  import opened Tables

  const MAX_PROBE_BACKOFF_SECS: real := 300.0

  datatype Settings = Settings(cooldown: real, maxProbes: int)

  function Backoff(cfg: Settings): real {
    if cfg.cooldown <= MAX_PROBE_BACKOFF_SECS then cfg.cooldown else MAX_PROBE_BACKOFF_SECS
  }

  datatype Phase = Created | Cooling | Probing(attempt: nat) | BackingOff(attempt: nat) | Ended

  // `probes` and `slept` record the probes started and the seconds of sleep requested.
  datatype Task = Task(phase: Phase, cancelRequested: bool, hasProbe: bool, probes: nat, slept: real)

  datatype GateState = GateState(open: bool, closeReason: Option<string>, recovery: Option<nat>, tasks: seq<Task>)

  datatype Action =
    | SignalRateLimit(reason: string, hasProbe: bool)
    | CancelRecovery
    | EngineReady
    | Shutdown
    | Resume(t: nat, ready: bool)

  const INIT := GateState(true, None, None, [])

  predicate RecoveryRunning(g: GateState) {
    g.recovery.Some? && g.recovery.value < |g.tasks| && !g.tasks[g.recovery.value].phase.Ended?
  }

  function Signal(g: GateState, reason: string, hasProbe: bool): GateState {
    if !g.open && RecoveryRunning(g) then g
    else GateState(false, Some(reason), Some(|g.tasks|), g.tasks + [Task(Created, false, hasProbe, 0, 0.0)])
  }

  function Cancel(g: GateState): GateState {
    if RecoveryRunning(g)
    then g.(tasks := g.tasks[g.recovery.value := g.tasks[g.recovery.value].(cancelRequested := true)])
    else g
  }

  function MarkReady(g: GateState): GateState {
    Cancel(g).(open := true)
  }

  // The next step of a recovery task; `ready` is the answer of the probe it was waiting for
  // (a timeout or an exception in the probe counts as not ready).
  function Advance(cfg: Settings, k: Task, ready: bool): Task {
    if k.cancelRequested then k.(phase := Ended)
    else match k.phase
      case Created => k.(phase := Cooling, slept := k.slept + cfg.cooldown)
      case Cooling =>
        if k.hasProbe && cfg.maxProbes >= 1 then k.(phase := Probing(1), probes := k.probes + 1) else k.(phase := Ended)
      case Probing(n) =>
        if ready || n >= cfg.maxProbes then k.(phase := Ended)
        else k.(phase := BackingOff(n), slept := k.slept + Backoff(cfg))
      case BackingOff(n) => k.(phase := Probing(n + 1), probes := k.probes + 1)
      case Ended => k
  }

  predicate Reopens(k: Task, ready: bool) {
    && !k.cancelRequested
    && ((k.phase.Cooling? && !k.hasProbe) || (k.phase.Probing? && ready))
  }

  predicate Enabled(g: GateState, a: Action) {
    a.Resume? ==> a.t < |g.tasks| && !g.tasks[a.t].phase.Ended?
  }

  function Next(cfg: Settings, g: GateState, a: Action): GateState
    requires Enabled(g, a)
  {
    match a
    case SignalRateLimit(reason, hasProbe) => Signal(g, reason, hasProbe)
    case CancelRecovery => Cancel(g)
    case EngineReady => MarkReady(g)
    case Shutdown => Cancel(g)
    case Resume(t, ready) =>
      g.(tasks := g.tasks[t := Advance(cfg, g.tasks[t], ready)], open := g.open || Reopens(g.tasks[t], ready))
  }

  ghost predicate ValidRun(cfg: Settings, g: GateState, acts: seq<Action>)
    decreases |acts|, 0
  {
    acts != [] ==>
      && ValidRun(cfg, g, acts[..|acts| - 1])
      && Enabled(Run(cfg, g, acts[..|acts| - 1]), acts[|acts| - 1])
  }

  ghost function Run(cfg: Settings, g: GateState, acts: seq<Action>): GateState
    requires ValidRun(cfg, g, acts)
    decreases |acts|, 1
  {
    if acts == [] then g else Next(cfg, Run(cfg, g, acts[..|acts| - 1]), acts[|acts| - 1])
  }

  // ---------- Invariant ----------

  predicate Recovering(k: Task) {
    !k.phase.Ended? && !k.cancelRequested
  }

  ghost predicate TaskOk(cfg: Settings, k: Task) {
    var extra := if cfg.maxProbes >= 1 then cfg.maxProbes - 1 else 0;
    match k.phase
    case Created => k.probes == 0 && k.slept == 0.0
    case Cooling => k.probes == 0 && k.slept == cfg.cooldown
    case Probing(n) =>
      k.hasProbe && 1 <= n <= cfg.maxProbes && k.probes == n && k.slept == cfg.cooldown + Times(n - 1, Backoff(cfg))
    case BackingOff(n) =>
      k.hasProbe && 1 <= n < cfg.maxProbes && k.probes == n && k.slept == cfg.cooldown + Times(n, Backoff(cfg))
    case Ended =>
      && (!k.cancelRequested ==>
            k.slept == cfg.cooldown + (if k.probes >= 1 then Times(k.probes - 1, Backoff(cfg)) else 0.0))
      && (!k.cancelRequested && k.probes >= 1 ==> k.hasProbe)
      && k.probes <= extra + 1
      && (cfg.maxProbes < 1 ==> k.probes == 0)
      && (k.slept == 0.0 || exists n :: 0 <= n <= extra && k.slept == cfg.cooldown + Times(n, Backoff(cfg)))
  }

  function Times(n: int, x: real): (r: real)
    ensures r == n as real * x
  {
    n as real * x
  }

  ghost predicate Inv(cfg: Settings, g: GateState) {
    && (g.recovery.Some? ==> g.recovery.value < |g.tasks|)
    && (forall t :: 0 <= t < |g.tasks| && Recovering(g.tasks[t]) ==> g.recovery == Some(t) && !g.open)
    && (forall t :: 0 <= t < |g.tasks| ==> TaskOk(cfg, g.tasks[t]))
  }

  lemma AdvanceKeepsTaskOk(cfg: Settings, k: Task, ready: bool)
    requires TaskOk(cfg, k)
    ensures TaskOk(cfg, Advance(cfg, k, ready))
  {
    match k.phase {
      case Probing(n) =>
        assert Times(n, Backoff(cfg)) == Times(n - 1, Backoff(cfg)) + Backoff(cfg);
      case BackingOff(n) =>
      case Cooling =>
        assert Times(0, Backoff(cfg)) == 0.0;
      case _ =>
    }
  }

  lemma StepKeepsInv(cfg: Settings, g: GateState, a: Action)
    requires Inv(cfg, g) && Enabled(g, a)
    ensures Inv(cfg, Next(cfg, g, a))
  {
    if a.Resume? {
      AdvanceKeepsTaskOk(cfg, g.tasks[a.t], a.ready);
    }
  }

  lemma {:induction false} RunKeepsInv(cfg: Settings, acts: seq<Action>)
    requires ValidRun(cfg, INIT, acts)
    ensures Inv(cfg, Run(cfg, INIT, acts))
  {
    if acts != [] {
      RunKeepsInv(cfg, acts[..|acts| - 1]);
      StepKeepsInv(cfg, Run(cfg, INIT, acts[..|acts| - 1]), acts[|acts| - 1]);
    }
  }

  // In every reachable state at most one recovery runs without a cancel request, it is the
  // gate's current one, and an open gate has none.
  lemma OneRecovery(cfg: Settings, acts: seq<Action>, t: nat, u: nat)
    requires ValidRun(cfg, INIT, acts)
    requires var g := Run(cfg, INIT, acts); t < |g.tasks| && u < |g.tasks| && Recovering(g.tasks[t])
    ensures var g := Run(cfg, INIT, acts);
      !g.open && g.recovery == Some(t) && (Recovering(g.tasks[u]) ==> u == t)
  {
    RunKeepsInv(cfg, acts);
  }

  // A closed gate opens only by an engine that proved ready or by its current recovery, which
  // nobody has asked to cancel, after a cooldown without probe or a successful probe.
  lemma WhoOpens(cfg: Settings, acts: seq<Action>, a: Action)
    requires ValidRun(cfg, INIT, acts) && Enabled(Run(cfg, INIT, acts), a)
    ensures var g := Run(cfg, INIT, acts);
      !g.open ==>
        (Next(cfg, g, a).open <==>
          || a.EngineReady?
          || (&& a.Resume? && g.recovery == Some(a.t) && Recovering(g.tasks[a.t])
              && (if g.tasks[a.t].hasProbe then g.tasks[a.t].phase.Probing? && a.ready
                  else g.tasks[a.t].phase.Cooling?)))
  {
    RunKeepsInv(cfg, acts);
  }

  lemma TimesMono(m: int, n: int, x: real)
    requires m <= n && x >= 0.0
    ensures Times(0, x) == 0.0 && Times(m, x) <= Times(n, x)
  {
    assert Times(n, x) - Times(m, x) == (n - m) as real * x;
  }

  lemma TaskIsBounded(cfg: Settings, k: Task)
    requires TaskOk(cfg, k) && cfg.cooldown >= 0.0 && cfg.maxProbes >= 1
    ensures k.probes <= cfg.maxProbes && k.slept <= cfg.cooldown + Times(cfg.maxProbes - 1, Backoff(cfg))
  {
    var x := Backoff(cfg);
    var last := cfg.maxProbes - 1;
    TimesMono(0, last, x);
    match k.phase {
      case Probing(n) => TimesMono(n - 1, last, x);
      case BackingOff(n) => TimesMono(n, last, x);
      case Ended =>
        if k.slept != 0.0 {
          var n :| 0 <= n <= last && k.slept == cfg.cooldown + Times(n, x);
          TimesMono(n, last, x);
        }
      case _ =>
    }
  }

  // No recovery starts more than the configured probes, nor asks for more sleep than the cooldown and
  // one back-off of at most 300 seconds before each probe after the first.
  lemma RecoveryIsBounded(cfg: Settings, acts: seq<Action>, t: nat)
    requires ValidRun(cfg, INIT, acts) && t < |Run(cfg, INIT, acts).tasks|
    requires cfg.cooldown >= 0.0 && cfg.maxProbes >= 1
    ensures var k := Run(cfg, INIT, acts).tasks[t];
      && k.probes <= cfg.maxProbes
      && k.slept <= cfg.cooldown + Times(cfg.maxProbes - 1, AtMost300(cfg.cooldown))
  {
    RunKeepsInv(cfg, acts);
    TaskIsBounded(cfg, Run(cfg, INIT, acts).tasks[t]);
  }

  function AtMost300(x: real): (r: real)
    ensures r <= 300.0 && r <= x && (r == 300.0 || r == x)
  {
    if x <= 300.0 then x else 300.0
  }

  lemma SleepOf(cfg: Settings, k: Task)
    requires TaskOk(cfg, k) && (k.phase.Probing? || (k.phase.Ended? && !k.cancelRequested))
    ensures k.phase.Probing? ==> 1 <= k.probes <= cfg.maxProbes && k.hasProbe
    ensures k.probes >= 1 ==> k.slept == cfg.cooldown + Times(k.probes - 1, AtMost300(cfg.cooldown))
    ensures k.probes == 0 ==> k.slept == cfg.cooldown
  {
    assert Backoff(cfg) == AtMost300(cfg.cooldown);
  }

  // And one that ended by itself has asked for exactly the cooldown and one back-off before each probe
  // that it made after the first.
  lemma SleepsExactly(cfg: Settings, acts: seq<Action>, t: nat)
    requires ValidRun(cfg, INIT, acts) && t < |Run(cfg, INIT, acts).tasks|
    requires var k := Run(cfg, INIT, acts).tasks[t]; k.phase.Ended? && !k.cancelRequested
    ensures var k := Run(cfg, INIT, acts).tasks[t];
      && (k.probes >= 1 ==>
            k.slept == cfg.cooldown + Times(k.probes - 1, AtMost300(cfg.cooldown)))
      && (k.probes == 0 ==> k.slept == cfg.cooldown)
  {
    RunKeepsInv(cfg, acts);
    SleepOf(cfg, Run(cfg, INIT, acts).tasks[t]);
  }

  // While it lasts: the first probe comes after the cooldown, and the next ones a back-off apart.
  lemma ProbesAreSpaced(cfg: Settings, acts: seq<Action>, t: nat)
    requires ValidRun(cfg, INIT, acts) && t < |Run(cfg, INIT, acts).tasks|
    requires Run(cfg, INIT, acts).tasks[t].phase.Probing?
    ensures var k := Run(cfg, INIT, acts).tasks[t];
      && 1 <= k.probes <= cfg.maxProbes && k.hasProbe
      && k.slept == cfg.cooldown + Times(k.probes - 1, AtMost300(cfg.cooldown))
  {
    RunKeepsInv(cfg, acts);
    SleepOf(cfg, Run(cfg, INIT, acts).tasks[t]);
  }

  // A recovery that ends by itself without reopening the gate has made all its probes.
  lemma GivesUpAfterAllProbes(cfg: Settings, acts: seq<Action>, t: nat, ready: bool)
    requires ValidRun(cfg, INIT, acts) && Enabled(Run(cfg, INIT, acts), Resume(t, ready))
    requires var g := Run(cfg, INIT, acts);
      var g' := Next(cfg, g, Resume(t, ready));
      Recovering(g.tasks[t]) && g'.tasks[t].phase.Ended? && !g'.open
    ensures var k := Next(cfg, Run(cfg, INIT, acts), Resume(t, ready)).tasks[t];
      k.hasProbe && k.probes == if cfg.maxProbes >= 1 then cfg.maxProbes else 0
  {
    RunKeepsInv(cfg, acts);
  }

  // ---------- What the calls do ----------

  // A signal closes the gate, with its reason, and starts a new recovery with the probe it was given;
  // unless the gate is closed and its current recovery has not ended, when it does nothing.
  lemma SignalCloses(cfg: Settings, acts: seq<Action>, reason: string, hasProbe: bool)
    requires ValidRun(cfg, INIT, acts)
    ensures var g := Run(cfg, INIT, acts); var g' := Signal(g, reason, hasProbe);
      && !g'.open
      && (g.recovery.Some? ==> g.recovery.value < |g.tasks|)
      && (if !g.open && g.recovery.Some? && !g.tasks[g.recovery.value].phase.Ended? then g' == g
          else
            && g'.closeReason == Some(reason) && g'.recovery == Some(|g.tasks|) && g'.tasks[..|g.tasks|] == g.tasks
            && |g'.tasks| == |g.tasks| + 1 && Recovering(g'.tasks[|g.tasks|])
            && g'.tasks[|g.tasks|].phase.Created? && g'.tasks[|g.tasks|].hasProbe == hasProbe)
  {
    RunKeepsInv(cfg, acts);
  }

  // Cancelling, shutting down and an engine that proves ready leave no recovery that is not asked to
  // cancel; only the last opens the gate.
  lemma CancelStopsRecovery(cfg: Settings, acts: seq<Action>, a: Action)
    requires ValidRun(cfg, INIT, acts) && (a.CancelRecovery? || a.Shutdown? || a.EngineReady?)
    ensures var g := Run(cfg, INIT, acts); var g' := Next(cfg, g, a);
      && (forall t :: 0 <= t < |g'.tasks| ==> !Recovering(g'.tasks[t]))
      && g'.open == (g.open || a.EngineReady?) && g'.closeReason == g.closeReason && g'.recovery == g.recovery
      && |g'.tasks| == |g.tasks|
      && (forall t :: 0 <= t < |g.tasks| ==>
            g'.tasks[t] == g.tasks[t].(cancelRequested := g.tasks[t].cancelRequested || Recovering(g.tasks[t])))
  {
    RunKeepsInv(cfg, acts);
  }

  // A task that was asked to cancel ends without doing anything.
  lemma CancelledJustEnds(cfg: Settings, g: GateState, t: nat, ready: bool)
    requires Enabled(g, Resume(t, ready)) && g.tasks[t].cancelRequested
    ensures Next(cfg, g, Resume(t, ready)) == g.(tasks := g.tasks[t := g.tasks[t].(phase := Ended)])
  {
  }

  // ---------- Why a gate stays closed ----------

  // Closed, with no recovery that will reopen it.
  ghost predicate Stuck(g: GateState) {
    !g.open && forall t :: 0 <= t < |g.tasks| ==> !Recovering(g.tasks[t])
  }

  // The current recovery is asked to cancel, or ends by itself after all its probes.
  ghost predicate Strands(cfg: Settings, g: GateState, a: Action) {
    && !Stuck(g)
    && (|| a.CancelRecovery?
        || a.Shutdown?
        || (a.Resume? && Enabled(g, a) && GivesUp(cfg, g.tasks[a.t], Next(cfg, g, a).tasks[a.t])))
  }

  predicate GivesUp(cfg: Settings, k: Task, k': Task) {
    Recovering(k) && k'.phase.Ended? && k'.hasProbe && k'.probes == if cfg.maxProbes >= 1 then cfg.maxProbes else 0
  }

  lemma SignalNeverStrands(g: GateState, reason: string, hasProbe: bool)
    requires !Stuck(g)
    ensures !Stuck(Signal(g, reason, hasProbe))
  {
    var g' := Signal(g, reason, hasProbe);
    assert g' == g || Recovering(g'.tasks[|g'.tasks| - 1]);
  }

  lemma StuckStep(cfg: Settings, g: GateState, a: Action)
    requires Inv(cfg, g) && Enabled(g, a)
    requires !Stuck(g) && Stuck(Next(cfg, g, a))
    ensures Strands(cfg, g, a)
  {
    var g' := Next(cfg, g, a);
    if a.SignalRateLimit? {
      SignalNeverStrands(g, a.reason, a.hasProbe);
    } else if a.Resume? {
      assert !g.open;
      var t :| 0 <= t < |g.tasks| && Recovering(g.tasks[t]);
      assert !Recovering(g'.tasks[t]);
      assert t == a.t;
      assert !Reopens(g.tasks[t], a.ready);
    }
  }

  ghost predicate StuckAfter(cfg: Settings, acts: seq<Action>) {
    ValidRun(cfg, INIT, acts) && Stuck(Run(cfg, INIT, acts))
  }

  // Step k stranded the gate, and it has been stuck ever since.
  ghost predicate StrandedAt(cfg: Settings, acts: seq<Action>, k: nat) {
    && k < |acts| && ValidRun(cfg, INIT, acts[..k]) && Strands(cfg, Run(cfg, INIT, acts[..k]), acts[k])
    && forall j :: k < j <= |acts| ==> StuckAfter(cfg, acts[..j])
  }

  lemma StrandedStill(cfg: Settings, acts: seq<Action>, k: nat)
    requires acts != [] && StrandedAt(cfg, acts[..|acts| - 1], k) && StuckAfter(cfg, acts)
    ensures StrandedAt(cfg, acts, k)
  {
    var init := acts[..|acts| - 1];
    assert acts[..k] == init[..k] && acts[..|acts|] == acts;
    forall j | k < j <= |acts| ensures StuckAfter(cfg, acts[..j]) {
      assert j < |acts| ==> acts[..j] == init[..j];
    }
  }

  // A stuck gate was stranded by one particular step: exhausted probes, an engine teardown or
  // a shutdown; and it has been stuck ever since.
  lemma {:induction false} WhyStuck(cfg: Settings, acts: seq<Action>) returns (k: nat)
    requires StuckAfter(cfg, acts)
    ensures StrandedAt(cfg, acts, k)
  {
    assert acts != [];
    var init := acts[..|acts| - 1];
    RunKeepsInv(cfg, init);
    if Stuck(Run(cfg, INIT, init)) {
      k := WhyStuck(cfg, init);
      StrandedStill(cfg, acts, k);
    } else {
      StuckStep(cfg, Run(cfg, INIT, init), acts[|acts| - 1]);
      k := |acts| - 1;
      assert acts[..|acts|] == acts;
    }
  }

  // A rate-limit signal starts or keeps a recovery except in one window: the gate is closed and
  // its recovery has been asked to cancel but has not ended yet. Then the signal is dropped.
  lemma SignalDroppedIff(cfg: Settings, acts: seq<Action>, reason: string, hasProbe: bool)
    requires ValidRun(cfg, INIT, acts)
    ensures var g := Run(cfg, INIT, acts);
      Stuck(Signal(g, reason, hasProbe)) <==>
        !g.open && RecoveryRunning(g) && g.tasks[g.recovery.value].cancelRequested
  {
    RunKeepsInv(cfg, acts);
    var g := Run(cfg, INIT, acts);
    var g' := Signal(g, reason, hasProbe);
    if g' != g {
      assert Recovering(g'.tasks[|g.tasks|]);
    } else if RecoveryRunning(g) && !g.tasks[g.recovery.value].cancelRequested {
      assert Recovering(g'.tasks[g.recovery.value]);
    }
  }

  // Such a run: a recovery is started and asked to cancel, and the next signal comes before it ends.
  lemma ASignalIsLost(cfg: Settings)
    ensures var acts := [SignalRateLimit("rate_limit_429", true), CancelRecovery];
      ValidRun(cfg, INIT, acts) && Stuck(Signal(Run(cfg, INIT, acts), "rate_limit_429", true))
  {
    var one := [SignalRateLimit("rate_limit_429", true)];
    var two := one + [CancelRecovery];
    assert two[..1] == one && one[..0] == [];
    assert Run(cfg, INIT, one) == Signal(INIT, "rate_limit_429", true);
    assert two == [SignalRateLimit("rate_limit_429", true), CancelRecovery];
  }

  // ---------- The gate object ----------

  class RateLimitGate {
    const cfg: Settings
    var open: bool
    var closeReason: Option<string>
    var recovery: Option<nat>
    var tasks: seq<Task>

    constructor (cfg: Settings)
      ensures State() == INIT && this.cfg == cfg
    {
      this.cfg := cfg;
      open, closeReason, recovery, tasks := true, None, None, [];
    }

    ghost function State(): GateState
      reads this
    {
      GateState(open, closeReason, recovery, tasks)
    }

    method SignalRateLimit(reason: string, hasProbe: bool)
      modifies this
      ensures State() == Signal(old(State()), reason, hasProbe)
    {
      if !open && recovery.Some? && recovery.value < |tasks| && !tasks[recovery.value].phase.Ended? {
        return;
      }
      open := false;
      closeReason := Some(reason);
      recovery := Some(|tasks|);
      tasks := tasks + [Task(Created, false, hasProbe, 0, 0.0)];
    }

    method CancelRecovery()
      modifies this
      ensures State() == Cancel(old(State()))
    {
      if recovery.Some? && recovery.value < |tasks| && !tasks[recovery.value].phase.Ended? {
        tasks := tasks[recovery.value := tasks[recovery.value].(cancelRequested := true)];
      }
    }

    method MarkEngineReady()
      modifies this
      ensures State() == MarkReady(old(State()))
    {
      CancelRecovery();
      open := true;
    }

    // One recovery task from one await to the next, whatever has happened since its last one;
    // `ready` is the answer of the probe it was waiting for.
    method ResumeTask(t: nat, ready: bool)
      requires Enabled(State(), Resume(t, ready))
      modifies this`tasks, this`open
      ensures State() == Next(cfg, old(State()), Resume(t, ready))
    {
      var k := tasks[t];
      if k.cancelRequested {
        tasks := tasks[t := k.(phase := Ended)];
        return;
      }
      match k.phase {
        case Created =>
          k := k.(phase := Cooling, slept := k.slept + cfg.cooldown);
        case Cooling =>
          if !k.hasProbe {
            open := true;
            k := k.(phase := Ended);
          } else if 1 <= cfg.maxProbes {
            k := k.(phase := Probing(1), probes := k.probes + 1);
          } else {
            k := k.(phase := Ended);
          }
        case Probing(attempt) =>
          if ready {
            open := true;
            k := k.(phase := Ended);
          } else if attempt < cfg.maxProbes {
            k := k.(phase := BackingOff(attempt), slept := k.slept + Backoff(cfg));
          } else {
            k := k.(phase := Ended);
          }
        case BackingOff(attempt) =>
          k := k.(phase := Probing(attempt + 1), probes := k.probes + 1);
        case Ended =>
      }
      tasks := tasks[t := k];
    }

    // The recovery coroutine with nothing else happening in between; `probe(n)` answers probe `n`.
    method RunRecovery(t: nat, probe: nat -> bool) returns (ghost answers: seq<bool>)
      requires t < |tasks| && tasks[t].phase.Created? && !tasks[t].cancelRequested && tasks[t].probes == 0
      requires !open
      modifies this
      ensures ValidRun(cfg, old(State()), Resumes(t, answers))
      ensures State() == Run(cfg, old(State()), Resumes(t, answers))
      ensures |tasks| == |old(tasks)| && tasks[t].phase.Ended?
      ensures open <==> !tasks[t].hasProbe || exists n :: 1 <= n <= cfg.maxProbes && probe(n)
      ensures open && tasks[t].hasProbe ==>
        1 <= tasks[t].probes && probe(tasks[t].probes) && forall n :: 1 <= n < tasks[t].probes ==> !probe(n)
    {
      ghost var g := State();
      answers := [];
      // await sleep(cooldown)
      answers := ResumeOnce(t, false, g, answers);
      answers := ResumeOnce(t, false, g, answers);
      if !tasks[t].hasProbe {
        return;
      }
      answers := ProbeUntilReady(t, probe, g, answers);
    }

    // The coroutine's probe loop, from its first probe on.
    method ProbeUntilReady(t: nat, probe: nat -> bool, ghost g: GateState, ghost answers: seq<bool>)
      returns (ghost answers': seq<bool>)
      requires Driven(t, g, answers) && t < |tasks| && !open
      requires tasks[t].hasProbe && !tasks[t].cancelRequested
      requires
        if cfg.maxProbes >= 1 then tasks[t].phase == Probing(1) && tasks[t].probes == 1 else tasks[t].phase.Ended?
      modifies this
      ensures Driven(t, g, answers') && |tasks| == |old(tasks)|
      ensures tasks[t].phase.Ended? && tasks[t].hasProbe
      ensures open ==> 1 <= tasks[t].probes <= cfg.maxProbes && probe(tasks[t].probes)
      ensures forall n :: 1 <= n <= cfg.maxProbes && (open ==> n < tasks[t].probes) ==> !probe(n)
    {
      answers' := answers;
      var attempt := 1;
      while attempt <= cfg.maxProbes
        invariant 1 <= attempt && Driven(t, g, answers')
        invariant |tasks| == |old(tasks)| && tasks[t].hasProbe && !tasks[t].cancelRequested && !open
        invariant attempt <= cfg.maxProbes ==> tasks[t].phase == Probing(attempt) && tasks[t].probes == attempt
        invariant attempt > cfg.maxProbes ==> tasks[t].phase.Ended?
        invariant forall n :: 1 <= n < attempt && n <= cfg.maxProbes ==> !probe(n)
      {
        // await wait_for(probe)
        var ready := probe(attempt);
        answers' := ResumeOnce(t, ready, g, answers');
        if ready {
          return;
        }
        if attempt < cfg.maxProbes {
          // await sleep(backoff)
          answers' := ResumeOnce(t, false, g, answers');
        }
        attempt := attempt + 1;
      }
    }

    ghost predicate Driven(t: nat, g: GateState, answers: seq<bool>)
      reads this
    {
      ValidRun(cfg, g, Resumes(t, answers)) && State() == Run(cfg, g, Resumes(t, answers))
    }

    // A step of the coroutine that `answers` have driven from `g` to here.
    method ResumeOnce(t: nat, ready: bool, ghost g: GateState, ghost answers: seq<bool>)
      returns (ghost answers': seq<bool>)
      requires Driven(t, g, answers) && t < |tasks| && !tasks[t].phase.Ended?
      modifies this
      ensures Driven(t, g, answers') && |tasks| == |old(tasks)|
      ensures tasks[t] == Advance(cfg, old(tasks)[t], ready) && open == (old(open) || Reopens(old(tasks)[t], ready))
    {
      answers' := answers + [ready];
      assert Resumes(t, answers')[..|answers|] == Resumes(t, answers);
      ResumeTask(t, ready);
    }
  }

  ghost function Resumes(t: nat, answers: seq<bool>): (acts: seq<Action>)
    ensures |acts| == |answers|
  {
    seq(|answers|, i requires 0 <= i < |answers| => Resume(t, answers[i]))
  }
}
