/** The check loop makes progress: steps cannot go on without launching flows, and from every
  * state in which a job has been added, the next flow is a few steps away. */
module LoopProgress {
  import opened CheckLoop
  import opened LoopSafety

  /** The step in which a worker runs process() and launches a flow. */
  predicate IsLaunch(s: State, step: Step) {
    step.Advance? && step.chain < |s.chains| && s.chains[step.chain].Picked?
  }

  function LaunchesIn(cfg: Config, s: State, steps: seq<Step>): nat
    decreases |steps|
  {
    if steps == [] then 0
    else (if IsLaunch(s, steps[0]) then 1 else 0) + LaunchesIn(cfg, Apply(cfg, s, steps[0]), steps[1..])
  }

  function BootstrapsIn(steps: seq<Step>): nat {
    if steps == [] then 0 else (if steps[0].Bootstrap? then 1 else 0) + BootstrapsIn(steps[1..])
  }

  /** The step changes something and is neither a bootstrap nor the passing of time. */
  predicate Effective(cfg: Config, s: State, step: Step) {
    (step.Advance? || step.Complete?) && Apply(cfg, s, step) != s
  }

  function EffectiveSteps(cfg: Config, s: State, steps: seq<Step>): nat
    decreases |steps|
  {
    if steps == [] then 0
    else
      (if Effective(cfg, s, steps[0]) then 1 else 0) + EffectiveSteps(cfg, Apply(cfg, s, steps[0]), steps[1..])
  }

  function TotalRank(s: State): nat {
    Sum(Ranks, s.chains) + s.running
  }

  lemma AdvanceRank(cfg: Config, s: State, i: nat)
    requires i < |s.chains|
    ensures var s' := AdvanceChain(cfg, s, i);
      TotalRank(s') + (if s' != s then 1 else 0) <= TotalRank(s) + (if s.chains[i].Picked? then 8 else 0)
  {
    var s' := AdvanceChain(cfg, s, i);
    if s.chains[i].Boot? && s.chains[i].obliterations > 0 {
      SumWipe(s.chains);
      SumUpdate(Ranks, Wipe(s.chains), i, s'.chains[i]);
    } else {
      assert s'.chains == s.chains[i := s'.chains[i]];
      SumUpdate(Ranks, s.chains, i, s'.chains[i]);
    }
  }

  lemma StepRank(cfg: Config, s: State, step: Step)
    ensures TotalRank(Apply(cfg, s, step)) + (if Effective(cfg, s, step) then 1 else 0)
         <= TotalRank(s) + (if IsLaunch(s, step) then 8 else 0) + (if step.Bootstrap? then 9 + cfg.obliterations else 0)
  {
    if step.Bootstrap? {
      SumAppend(Ranks, s.chains, Boot(cfg.obliterations));
    } else if step.Advance? && step.chain < |s.chains| {
      AdvanceRank(cfg, s, step.chain);
    }
  }

  /** In any run, with any number of launches and bootstraps, the steps taken are paid for by the
    * ranks at the start, eight per launch, and the rank of each new bootstrapper. */
  lemma {:induction false} StepsArePaidFor(cfg: Config, s: State, steps: seq<Step>)
    ensures EffectiveSteps(cfg, s, steps) + TotalRank(Run(cfg, s, steps))
         <= TotalRank(s) + 8 * LaunchesIn(cfg, s, steps) + (9 + cfg.obliterations) * BootstrapsIn(steps)
    decreases |steps|
  {
    if steps != [] {
      StepRank(cfg, s, steps[0]);
      StepsArePaidFor(cfg, Apply(cfg, s, steps[0]), steps[1..]);
      var k, b := 9 + cfg.obliterations, BootstrapsIn(steps[1..]);
      assert k * (1 + b) == k + k * b;
    }
  }

  lemma {:induction false} NoBootstraps(steps: seq<Step>)
    requires Bootstrap !in steps
    ensures BootstrapsIn(steps) == 0
  {
    if steps != [] {
      assert steps[0] in steps;
      NoBootstraps(steps[1..]);
    }
  }

  /** So a run that keeps stepping keeps launching: more than TotalRank(s) steps without a
    * bootstrap contain a launch. */
  lemma SteppingLaunches(cfg: Config, s: State, steps: seq<Step>)
    requires Bootstrap !in steps && EffectiveSteps(cfg, s, steps) > TotalRank(s)
    ensures LaunchesIn(cfg, s, steps) > 0
  {
    StepsArePaidFor(cfg, s, steps);
    NoBootstraps(steps);
  }

  /** Every step of the run is a worker's, and changes something. */
  ghost predicate Moving(cfg: Config, s: State, steps: seq<Step>)
    decreases |steps|
  {
    steps != [] ==>
      && !steps[0].Bootstrap? && !steps[0].Tick? && Apply(cfg, s, steps[0]) != s
      && Moving(cfg, Apply(cfg, s, steps[0]), steps[1..])
  }

  lemma {:induction false} MovingIsEffective(cfg: Config, s: State, steps: seq<Step>)
    requires Moving(cfg, s, steps)
    ensures EffectiveSteps(cfg, s, steps) == |steps| && Bootstrap !in steps
    decreases |steps|
  {
    if steps != [] {
      MovingIsEffective(cfg, Apply(cfg, s, steps[0]), steps[1..]);
      assert forall step | step in steps :: step == steps[0] || step in steps[1..];
    }
  }

  /** Workers that keep moving cannot do so for more steps than the rank without launching a flow. */
  lemma MovingLaunches(cfg: Config, s: State, steps: seq<Step>)
    requires Moving(cfg, s, steps) && |steps| > TotalRank(s)
    ensures LaunchesIn(cfg, s, steps) > 0
  {
    MovingIsEffective(cfg, s, steps);
    SteppingLaunches(cfg, s, steps);
  }

  function Launches(s: State): nat { Total(s.launches) }

  function Total(launches: seq<seq<nat>>): nat {
    if launches == [] then 0 else Total(launches[..|launches| - 1]) + |launches[|launches| - 1]|
  }

  lemma TotalUpdate(launches: seq<seq<nat>>, i: nat, t: nat)
    requires i < |launches|
    ensures Total(launches[i := launches[i] + [t]]) == Total(launches) + 1
  {
    var n := |launches| - 1;
    var launches' := launches[i := launches[i] + [t]];
    if i < n {
      assert launches'[..n] == launches[..n][i := launches[i] + [t]];
      TotalUpdate(launches[..n], i, t);
    } else {
      assert launches'[..n] == launches[..n];
    }
  }

  lemma StepLaunches(cfg: Config, s: State, step: Step)
    requires |s.launches| == |s.chains|
    ensures var s' := Apply(cfg, s, step);
      |s'.launches| == |s'.chains| && Launches(s') == Launches(s) + if IsLaunch(s, step) then 1 else 0
  {
    var s' := Apply(cfg, s, step);
    if step.Bootstrap? {
      assert s'.launches[..|s.launches|] == s.launches;
    } else if IsLaunch(s, step) {
      TotalUpdate(s.launches, step.chain, s.now);
    }
  }

  /** The launches counted in a run are the flows that it adds to the record. */
  lemma {:induction false} LaunchesAreRecorded(cfg: Config, s: State, steps: seq<Step>)
    requires |s.launches| == |s.chains|
    ensures Launches(Run(cfg, s, steps)) == Launches(s) + LaunchesIn(cfg, s, steps)
    decreases |steps|
  {
    if steps != [] {
      StepLaunches(cfg, s, steps[0]);
      LaunchesAreRecorded(cfg, Apply(cfg, s, steps[0]), steps[1..]);
    }
  }

  /** Stepping this chain alone leads to a launch: it is an unprocessed job, or a requeue call
    * with sum 0 that finds no job. */
  predicate Drivable(s: State, i: nat) {
    && i < |s.chains| && Carries(s.chains[i])
    && (s.chains[i].Call? ==> WaitingCount(s) == 0 && DelayedCount(s) == 0)
  }

  predicate Due(s: State, i: nat) {
    i < |s.chains| && s.chains[i].Delayed? && s.chains[i].readyAt <= s.now
  }

  lemma Drive(cfg: Config, s: State, i: nat) returns (steps: seq<Step>)
    requires Drivable(s, i)
    ensures Bootstrap !in steps && |steps| <= Rank(s.chains[i])
    ensures s.chains[i].Waiting? || s.chains[i].Picked? || Due(s, i) ==> |steps| < Rank(s.chains[i])
    ensures LaunchesIn(cfg, s, steps) == 1
    decreases Rank(s.chains[i]), if Due(s, i) then 0 else 1
  {
    if s.chains[i].Picked? {
      steps := [Advance(i)];
      assert LaunchesIn(cfg, Apply(cfg, s, Advance(i)), []) == 0;
    } else {
      var step := if s.chains[i].Delayed? && !Due(s, i) then Tick(s.chains[i].readyAt - s.now) else Advance(i);
      var s' := Apply(cfg, s, step);
      if step.Advance? {
        SumUpdate(WaitingJobs, s.chains, i, s'.chains[i]);
        SumUpdate(DelayedJobs, s.chains, i, s'.chains[i]);
      }
      var rest := Drive(cfg, s', i);
      steps := [step] + rest;
      assert steps[1..] == rest;
    }
  }

  /** From every state in which the loop is alive, at most eight steps of the workers launch the
    * next flow; no bootstrap is needed for it. */
  lemma NextLaunch(cfg: Config, s: State) returns (steps: seq<Step>)
    requires Alive(s)
    ensures Bootstrap !in steps && |steps| <= 8 && LaunchesIn(cfg, s, steps) == 1
  {
    var i: nat :| i < |s.chains| && Carries(s.chains[i]);
    if s.chains[i].Call? && (WaitingCount(s) > 0 || DelayedCount(s) > 0) {
      JobCounted(s);
      var j: nat :| j < |s.chains| && Unprocessed(s.chains[j]);
      steps := Drive(cfg, s, j);
    } else {
      steps := Drive(cfg, s, i);
    }
  }

  /** Together: from a start with leftovers, or after any seed, every reachable state can go on. */
  lemma LoopGoesOn(cfg: Config, s: State, steps: seq<Step>) returns (more: seq<Step>)
    requires cfg.requeueSkipsActive && Initial(s) && Run(cfg, s, steps).seeded
    ensures Bootstrap !in more && |more| <= 8 && LaunchesIn(cfg, Run(cfg, s, steps), more) == 1
  {
    InitialInv(s);
    RunKeepsInv(cfg, s, steps);
    more := NextLaunch(cfg, Run(cfg, s, steps));
  }
}
