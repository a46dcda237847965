/**
 How many navigations begin after the rate-limit gate closes.
 */
module NavigationBound {
  import opened BufferedRun
  import opened Tally

  // The gate is closed before every step of the run; the last step may reopen it.
  ghost predicate ClosedRun(cfg: Config, s: State, acts: seq<Action>)
    requires ValidRun(cfg, s, acts)
    decreases |acts|
  {
    acts != [] ==> !s.gate.open && !acts[0].Reboot? && ClosedRun(cfg, Next(cfg, s, acts[0]), acts[1..])
  }

  // Past the gate check, and not navigating yet.
  function Committed(x: Worker): nat {
    if x.pc.AwaitingSlot? then 1 else 0
  }

  function Navs(x: Worker): nat {
    x.navs
  }

  function Debt(x: Worker): nat {
    x.navs + Committed(x)
  }

  lemma {:induction false} DebtIsConstant(cfg: Config, s: State, acts: seq<Action>)
    requires ValidRun(cfg, s, acts) && ClosedRun(cfg, s, acts)
    ensures var s' := Run(cfg, s, acts);
      |s'.workers| == |s.workers| && forall w :: 0 <= w < |s.workers| ==> Debt(s'.workers[w]) == Debt(s.workers[w])
    decreases |acts|
  {
    if acts != [] {
      var s1 := Next(cfg, s, acts[0]);
      assert |s1.workers| == |s.workers|;
      assert forall w :: 0 <= w < |s.workers| ==> Debt(s1.workers[w]) == Debt(s.workers[w]);
      DebtIsConstant(cfg, s1, acts[1..]);
    }
  }

  // While the gate is closed, navigations begun plus workers past the check but not navigating
  // is constant. So no worker begins more than one navigation, and together they begin no more
  // than the number of workers that had passed the check when it closed.
  lemma NavigationsAfterClosing(cfg: Config, s: State, acts: seq<Action>, w: nat)
    requires ValidRun(cfg, s, acts) && ClosedRun(cfg, s, acts) && w < |s.workers|
    ensures var s' := Run(cfg, s, acts);
      && |s'.workers| == |s.workers|
      && s.workers[w].navs <= s'.workers[w].navs <= s.workers[w].navs + 1
      && (s'.workers[w].navs > s.workers[w].navs <==> s.workers[w].pc.AwaitingSlot? && !s'.workers[w].pc.AwaitingSlot?)
      && Sum(Navs, s'.workers) + Sum(Committed, s'.workers) == Sum(Navs, s.workers) + Sum(Committed, s.workers)
      && Sum(Navs, s'.workers) - Sum(Navs, s.workers) <= Sum(Committed, s.workers) <= |s.workers|
  {
    DebtIsConstant(cfg, s, acts);
    NavsGrow(cfg, s, acts, w);
    var ws := Run(cfg, s, acts).workers;
    SumSame(Debt, s.workers, ws);
    SumPlus(Navs, Committed, Debt, s.workers);
    SumPlus(Navs, Committed, Debt, ws);
    SumAtMost(Committed, s.workers);
  }

  lemma {:induction false} NavsGrow(cfg: Config, s: State, acts: seq<Action>, w: nat)
    requires ValidRun(cfg, s, acts) && ClosedRun(cfg, s, acts) && w < |s.workers|
    ensures var s' := Run(cfg, s, acts); w < |s'.workers| && s.workers[w].navs <= s'.workers[w].navs
    decreases |acts|
  {
    if acts != [] {
      NavsGrow(cfg, Next(cfg, s, acts[0]), acts[1..], w);
    }
  }
}
