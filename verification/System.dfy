/** The whole service: the election decides who seeds the check loop, the loop launches flows, and
  * each flow checks a wallet once. All steps of all three interleave. */
module System {
  import opened Options
  import Election
  import CheckLoop
  import LoopSafety
  import LoopRate
  import Wallet
  import Checks
  import Products

  datatype Config = Config(loop: CheckLoop.Config, rule: Checks.Rule, election: Election.Config)

  /** `booted` are the processes whose TasksService has bootstrapped, `seeders` those among them
    * that passed isTheOne() and seeded the queue. */
  datatype State = State(
    election: Election.State, loop: CheckLoop.State, wallet: Wallet.State, booted: set<nat>, seeders: set<nat>)

  datatype Step =
    | ElectionStep(e: Election.Step)
    | LoopStep(l: CheckLoop.Step)
    | TasksBootstrap(p: nat)
    | WalletStep(w: Wallet.Step)

  predicate Launched(s: CheckLoop.State, f: Wallet.Flow) {
    f.0 < |s.launches| && f.1 < |s.launches[f.0]|
  }

  function BootstrapTasks(cfg: Config, s: State, p: nat): State {
    if p !in s.election.members || p in s.booted then s
    else if Election.IsTheOne(s.election.members[p]) then
      s.(booted := s.booted + {p}, seeders := s.seeders + {p},
         loop := CheckLoop.Apply(cfg.loop, s.loop, CheckLoop.Bootstrap))
    else s.(booted := s.booted + {p})
  }

  function Apply(cfg: Config, s: State, step: Step): State {
    match step
    case ElectionStep(e) => s.(election := Election.Apply(cfg.election, s.election, e))
    case LoopStep(l) => if l.Bootstrap? then s else s.(loop := CheckLoop.Apply(cfg.loop, s.loop, l))
    case TasksBootstrap(p) => BootstrapTasks(cfg, s, p)
    case WalletStep(w) =>
      if w.Check? && !Launched(s.loop, w.flow) then s
      else s.(wallet := Wallet.Apply(cfg.rule, s.wallet, w))
  }

  function Run(cfg: Config, s: State, steps: seq<Step>): State
    decreases |steps|
  {
    if steps == [] then s else Run(cfg, Apply(cfg, s, steps[0]), steps[1..])
  }

  /** A start: no process yet, no refill outstanding, and whatever jobs the tasks queue still holds. */
  function Start(balance: nat, leftover: CheckLoop.State): State {
    State(Election.START, leftover, Wallet.State(balance, map[], {}), {}, {})
  }

  // ----- Seeds

  ghost predicate SeedInv(s: State, leftovers: nat) {
    && Election.ElectionInv(s.election)
    && s.seeders <= s.booted && s.seeders <= s.election.winners
    && |s.loop.chains| == |s.loop.launches| == leftovers + |s.seeders|
  }

  lemma LoopKeepsChains(cfg: CheckLoop.Config, s: CheckLoop.State, l: CheckLoop.Step)
    requires !l.Bootstrap?
    ensures var s' := CheckLoop.Apply(cfg, s, l); |s'.chains| == |s.chains| && |s'.launches| == |s.launches|
  {
  }

  lemma ElectionKeepsWinners(cfg: Election.Config, s: Election.State, e: Election.Step)
    ensures s.winners <= Election.Apply(cfg, s, e).winners
    ensures s.ended <= Election.Apply(cfg, s, e).ended
    ensures !cfg.sessionsEnd ==> Election.Apply(cfg, s, e).ended == s.ended
  {
  }

  lemma BootstrapKeepsSeeds(cfg: Config, s: State, leftovers: nat, p: nat)
    requires SeedInv(s, leftovers)
    ensures SeedInv(BootstrapTasks(cfg, s, p), leftovers)
  {
    if p in s.election.members && p !in s.booted && Election.IsTheOne(s.election.members[p]) {
      assert Election.Leads(s.election, p);
      assert |s.seeders + {p}| == |s.seeders| + 1;
    }
  }

  lemma StepKeepsSeeds(cfg: Config, s: State, leftovers: nat, step: Step)
    requires SeedInv(s, leftovers)
    ensures SeedInv(Apply(cfg, s, step), leftovers)
  {
    match step
    case ElectionStep(e) =>
      Election.StepKeepsElection(cfg.election, s.election, e);
      ElectionKeepsWinners(cfg.election, s.election, e);
    case LoopStep(l) => if !l.Bootstrap? { LoopKeepsChains(cfg.loop, s.loop, l); }
    case TasksBootstrap(p) => BootstrapKeepsSeeds(cfg, s, leftovers, p);
    case WalletStep(_) =>
  }

  lemma StepKeepsEnded(cfg: Config, s: State, step: Step)
    ensures !cfg.election.sessionsEnd ==> Apply(cfg, s, step).election.ended == s.election.ended
  {
    if step.ElectionStep? { ElectionKeepsWinners(cfg.election, s.election, step.e); }
  }

  lemma SeedsAreBounded(s: State, leftovers: nat)
    requires SeedInv(s, leftovers)
    ensures |s.loop.chains| <= leftovers + |s.election.ended| + 1
  {
    Election.SubsetSize(s.seeders, s.election.winners);
    Election.WinnersNeedEnds(s.election);
  }

  lemma {:induction false} RunKeepsSeeds(cfg: Config, s: State, leftovers: nat, steps: seq<Step>)
    requires SeedInv(s, leftovers)
    ensures SeedInv(Run(cfg, s, steps), leftovers)
    ensures !cfg.election.sessionsEnd ==> Run(cfg, s, steps).election.ended == s.election.ended
    decreases |steps|
  {
    if steps != [] {
      StepKeepsSeeds(cfg, s, leftovers, steps[0]);
      StepKeepsEnded(cfg, s, steps[0]);
      RunKeepsSeeds(cfg, Apply(cfg, s, steps[0]), leftovers, steps[1..]);
    }
  }

  /** In every run of a cluster the chains are those of the jobs left over and one for each process
    * that passed isTheOne(), and these are at most one more than sessions have ended; while no
    * session ends there is at most one. */
  lemma ChainsNeedLostSessions(cfg: Config, balance: nat, leftover: CheckLoop.State, steps: seq<Step>)
    requires CheckLoop.Initial(leftover)
    ensures var s := Run(cfg, Start(balance, leftover), steps);
      && |s.loop.chains| == |leftover.chains| + |s.seeders| && |s.seeders| <= |s.election.ended| + 1
      && (!cfg.election.sessionsEnd ==> |s.seeders| <= 1)
  {
    RunKeepsSeeds(cfg, Start(balance, leftover), |leftover.chains|, steps);
    SeedsAreBounded(Run(cfg, Start(balance, leftover), steps), |leftover.chains|);
  }

  /** A process decides once, at its bootstrap, whether it seeds: one that did not lead then never
    * seeds, even if it is elected later. */
  lemma {:induction false} DecidesOnce(cfg: Config, s: State, steps: seq<Step>, p: nat)
    requires p in s.booted
    ensures var r := Run(cfg, s, steps); p in r.booted && (p in r.seeders <==> p in s.seeders)
    decreases |steps|
  {
    if steps != [] {
      DecidesOnce(cfg, Apply(cfg, s, steps[0]), steps[1..], p);
    }
  }

  lemma BootstrapDecides(cfg: Config, s: State, p: nat)
    requires p in s.election.members && p !in s.booted && p !in s.seeders
    ensures var s' := Apply(cfg, s, TasksBootstrap(p));
      p in s'.booted && (p in s'.seeders <==> Election.IsTheOne(s.election.members[p]))
  {
  }

  // ----- The loop inside the system

  lemma {:induction false} LoopStaysAlive(cfg: Config, s: State, steps: seq<Step>)
    requires cfg.loop.requeueSkipsActive && LoopSafety.LoopInv(s.loop)
    ensures LoopSafety.LoopInv(Run(cfg, s, steps).loop)
    decreases |steps|
  {
    if steps != [] {
      match steps[0] {
        case LoopStep(l) => LoopSafety.StepKeepsInv(cfg.loop, s.loop, l);
        case TasksBootstrap(_) => LoopSafety.StepKeepsInv(cfg.loop, s.loop, CheckLoop.Bootstrap);
        case _ =>
      }
      LoopStaysAlive(cfg, Apply(cfg, s, steps[0]), steps[1..]);
    }
  }

  /** Once a leader has seeded, or from the start if jobs were left over, the service as a whole
    * never stops checking: a token is always there, whatever the election does. */
  lemma OnceSeededNeverOut(cfg: Config, balance: nat, leftover: CheckLoop.State, steps: seq<Step>)
    requires cfg.loop.requeueSkipsActive && CheckLoop.Initial(leftover)
    ensures var s := Run(cfg, Start(balance, leftover), steps);
      s.seeders != {} || leftover.chains != []
      ==> if s.loop.seeded then LoopSafety.Alive(s.loop) else LoopSafety.SeedPending(s.loop)
  {
    LoopSafety.InitialInv(leftover);
    RunKeepsSeeds(cfg, Start(balance, leftover), |leftover.chains|, steps);
    LoopStaysAlive(cfg, Start(balance, leftover), steps);
  }

  // ----- Refills inside the system

  /** Every refill outstanding belongs to a flow launched at most `settling` milliseconds ago. */
  ghost predicate Timely(s: State, settling: nat) {
    forall f | f in s.wallet.outstanding && Launched(s.loop, f) :: s.loop.now <= s.loop.launches[f.0][f.1] + settling
  }

  ghost predicate AlwaysTimely(cfg: Config, s: State, steps: seq<Step>, settling: nat)
    decreases |steps|
  {
    Timely(s, settling) && (steps != [] ==> AlwaysTimely(cfg, Apply(cfg, s, steps[0]), steps[1..], settling))
  }

  ghost predicate PaceInv(cfg: Config, s: State) {
    LoopRate.RateInv(cfg.loop, s.loop) && LoopRate.LaunchedByNow(s.loop)
  }

  lemma StepKeepsPace(cfg: Config, s: State, step: Step)
    requires PaceInv(cfg, s)
    ensures PaceInv(cfg, Apply(cfg, s, step))
  {
    var l := if step.LoopStep? then step.l else CheckLoop.Bootstrap;
    LoopRate.StepKeepsRate(cfg.loop, s.loop, l);
    LoopRate.StepKeepsLaunched(cfg.loop, s.loop, l);
  }

  lemma {:induction false} RunKeepsPace(cfg: Config, s: State, steps: seq<Step>)
    requires PaceInv(cfg, s)
    ensures PaceInv(cfg, Run(cfg, s, steps))
    decreases |steps|
  {
    if steps != [] {
      StepKeepsPace(cfg, s, steps[0]);
      RunKeepsPace(cfg, Apply(cfg, s, steps[0]), steps[1..]);
    }
  }

  ghost predicate FlowInv(cfg: Config, s: State) {
    && PaceInv(cfg, s)
    && (forall f | f in s.wallet.outstanding :: Launched(s.loop, f))
    && Wallet.Sane(cfg.rule, s.wallet)
  }

  lemma LaunchesLast(cfg: CheckLoop.Config, s: CheckLoop.State, l: CheckLoop.Step, f: Wallet.Flow)
    requires Launched(s, f)
    ensures Launched(CheckLoop.Apply(cfg, s, l), f)
  {
  }

  lemma LoopKeepsFlows(cfg: Config, s: State, l: CheckLoop.Step)
    requires FlowInv(cfg, s)
    ensures FlowInv(cfg, s.(loop := CheckLoop.Apply(cfg.loop, s.loop, l)))
  {
    LoopRate.StepKeepsRate(cfg.loop, s.loop, l);
    LoopRate.StepKeepsLaunched(cfg.loop, s.loop, l);
    forall f | f in s.wallet.outstanding
      ensures Launched(CheckLoop.Apply(cfg.loop, s.loop, l), f)
    {
      LaunchesLast(cfg.loop, s.loop, l, f);
    }
  }

  lemma StepKeepsFlows(cfg: Config, s: State, step: Step)
    requires Checks.Sound(cfg.rule) && FlowInv(cfg, s)
    ensures FlowInv(cfg, Apply(cfg, s, step))
  {
    match step
    case ElectionStep(_) =>
    case LoopStep(l) => LoopKeepsFlows(cfg, s, l);
    case TasksBootstrap(_) => LoopKeepsFlows(cfg, s, CheckLoop.Bootstrap);
    case WalletStep(w) => Wallet.StepSane(cfg.rule, s.wallet, w);
  }

  /** Different flows launched in a window are no more than the launches in it. */
  lemma {:induction false} FlowsAreLaunches(flows: set<Wallet.Flow>, launches: seq<seq<nat>>, from: nat, to: nat)
    requires forall f | f in flows :: f.0 < |launches| && f.1 < |launches[f.0]| && from <= launches[f.0][f.1] <= to
    ensures |flows| <= LoopRate.TotalIn(launches, from, to)
    decreases |launches|, if launches == [] then 0 else |launches[|launches| - 1]|
  {
    if launches == [] {
      assert flows == {};
    } else {
      var n := |launches| - 1;
      var last := launches[n];
      if last == [] {
        FlowsAreLaunches(flows, launches[..n], from, to);
      } else {
        var m := |last| - 1;
        var f: Wallet.Flow := (n, m);
        var shorter := launches[..n] + [last[..m]];
        assert shorter[..n] == launches[..n] && shorter[n] == last[..m];
        forall g | g in flows - {f}
          ensures g.0 < |shorter| && g.1 < |shorter[g.0]| && shorter[g.0][g.1] == launches[g.0][g.1]
        {
        }
        FlowsAreLaunches(flows - {f}, shorter, from, to);
        assert |flows| <= |flows - {f}| + (if f in flows then 1 else 0);
      }
    }
  }

  /** How many refills of one wallet can be outstanding at once. */
  function Stacked(cfg: Config, s: State, leftovers: nat, settling: nat): nat
    requires cfg.loop.recheckDelay > 0
  {
    (leftovers + |s.election.ended| + 1) * (settling / cfg.loop.recheckDelay + 1)
  }

  lemma WindowBound(chains: nat, seeds: nat, window: nat, settling: nat, d: nat)
    requires chains <= seeds && window <= settling && d > 0
    ensures chains * (window / d + 1) <= seeds * (settling / d + 1)
  {
    Products.DivideMonotone(window, settling, d);
    Products.Monotone(window / d + 1, settling / d + 1, chains);
    Products.Monotone(chains, seeds, settling / d + 1);
  }

  lemma OutstandingLaunches(cfg: Config, s: State, settling: nat, from: nat)
    requires FlowInv(cfg, s) && Timely(s, settling)
    requires from == if s.loop.now < settling then 0 else s.loop.now - settling
    ensures |s.wallet.outstanding| <= LoopRate.TotalIn(s.loop.launches, from, s.loop.now)
  {
    var flows := s.wallet.outstanding.Keys;
    assert |flows| == |s.wallet.outstanding|;
    FlowsAreLaunches(flows, s.loop.launches, from, s.loop.now);
  }

  lemma LaunchesAreBounded(cfg: Config, s: State, leftovers: nat, settling: nat, from: nat)
    requires cfg.loop.recheckDelay > 0 && SeedInv(s, leftovers) && LoopRate.RateInv(cfg.loop, s.loop)
    requires from == if s.loop.now < settling then 0 else s.loop.now - settling
    ensures LoopRate.TotalIn(s.loop.launches, from, s.loop.now) <= Stacked(cfg, s, leftovers, settling)
  {
    LoopRate.RateBoundAt(cfg.loop, s.loop, from, s.loop.now);
    SeedsAreBounded(s, leftovers);
    WindowBound(
        |s.loop.chains|, leftovers + |s.election.ended| + 1, s.loop.now - from, settling, cfg.loop.recheckDelay);
  }

  lemma OutstandingIsBounded(cfg: Config, s: State, leftovers: nat, settling: nat)
    requires cfg.loop.recheckDelay > 0 && SeedInv(s, leftovers) && FlowInv(cfg, s) && Timely(s, settling)
    ensures |s.wallet.outstanding| <= Stacked(cfg, s, leftovers, settling)
  {
    var from := if s.loop.now < settling then 0 else s.loop.now - settling;
    OutstandingLaunches(cfg, s, settling, from);
    LaunchesAreBounded(cfg, s, leftovers, settling, from);
  }

  ghost predicate WithinBound(cfg: Config, s: State, leftovers: nat, balance: nat, settling: nat)
    requires cfg.loop.recheckDelay > 0
  {
    Wallet.Total(s.wallet) <= balance || Wallet.Total(s.wallet) <= Stacked(cfg, s, leftovers, settling) * cfg.rule.max
  }

  lemma StackedGrows(cfg: Config, s: State, leftovers: nat, step: Step, settling: nat)
    requires cfg.loop.recheckDelay > 0 && Checks.Sound(cfg.rule)
    ensures Stacked(cfg, s, leftovers, settling) <= Stacked(cfg, Apply(cfg, s, step), leftovers, settling)
    ensures Stacked(cfg, s, leftovers, settling) * cfg.rule.max
         <= Stacked(cfg, Apply(cfg, s, step), leftovers, settling) * cfg.rule.max
  {
    var s' := Apply(cfg, s, step);
    if step.ElectionStep? { ElectionKeepsWinners(cfg.election, s.election, step.e); }
    Election.SubsetSize(s.election.ended, s'.election.ended);
    Products.Monotone(
        leftovers + |s.election.ended| + 1, leftovers + |s'.election.ended| + 1, settling / cfg.loop.recheckDelay + 1);
    Products.Monotone(Stacked(cfg, s, leftovers, settling), Stacked(cfg, s', leftovers, settling), cfg.rule.max);
  }

  lemma StepWithinBound(cfg: Config, s: State, leftovers: nat, step: Step, balance: nat, settling: nat)
    requires cfg.loop.recheckDelay > 0 && Checks.Sound(cfg.rule)
    requires FlowInv(cfg, s) && WithinBound(cfg, s, leftovers, balance, settling)
    requires SeedInv(Apply(cfg, s, step), leftovers) && FlowInv(cfg, Apply(cfg, s, step))
    requires Timely(Apply(cfg, s, step), settling)
    ensures WithinBound(cfg, Apply(cfg, s, step), leftovers, balance, settling)
  {
    var s' := Apply(cfg, s, step);
    StackedGrows(cfg, s, leftovers, step, settling);
    if s'.wallet != s.wallet {
      OutstandingIsBounded(cfg, s', leftovers, settling);
      Wallet.StepOvershoot(cfg.rule, s.wallet, step.w, Stacked(cfg, s', leftovers, settling));
    }
  }

  lemma {:induction false} RunWithinBound(
      cfg: Config, s: State, leftovers: nat, steps: seq<Step>, balance: nat, settling: nat)
    requires cfg.loop.recheckDelay > 0 && Checks.Sound(cfg.rule)
    requires SeedInv(s, leftovers) && FlowInv(cfg, s) && WithinBound(cfg, s, leftovers, balance, settling)
    requires AlwaysTimely(cfg, s, steps, settling)
    ensures WithinBound(cfg, Run(cfg, s, steps), leftovers, balance, settling)
    decreases |steps|
  {
    if steps != [] {
      StepKeepsSeeds(cfg, s, leftovers, steps[0]);
      StepKeepsFlows(cfg, s, steps[0]);
      StepWithinBound(cfg, s, leftovers, steps[0], balance, settling);
      RunWithinBound(cfg, Apply(cfg, s, steps[0]), leftovers, steps[1..], balance, settling);
    }
  }

  /** The whole service, whatever jobs the queue holds at the start: the flows launched in any
    * window. */
  lemma ServiceRate(
      cfg: Config, balance: nat, leftover: CheckLoop.State, steps: seq<Step>, from: nat, to: nat)
    requires CheckLoop.Initial(leftover) && cfg.loop.recheckDelay > 0 && from <= to
    ensures var s := Run(cfg, Start(balance, leftover), steps);
      LoopRate.TotalIn(s.loop.launches, from, to)
      <= (|leftover.chains| + |s.election.ended| + 1) * ((to - from) / cfg.loop.recheckDelay + 1)
  {
    var s := Run(cfg, Start(balance, leftover), steps);
    RunKeepsPace(cfg, Start(balance, leftover), steps);
    LoopRate.RateBoundAt(cfg.loop, s.loop, from, to);
    ChainsNeedLostSessions(cfg, balance, leftover, steps);
    WindowBound(
        |s.loop.chains|, |leftover.chains| + |s.election.ended| + 1, to - from, to - from, cfg.loop.recheckDelay);
  }

  /** The whole service, whatever jobs the queue holds at the start: if refills settle or fail within
    * `settling` of their flow's launch, then a wallet's balance with all refills still to come
    * never exceeds the larger of what it held at first and
    *   (jobs left over + sessions ended + 1) * (settling / recheckDelay + 1) * max. */
  lemma ServiceOvershoot(cfg: Config, balance: nat, leftover: CheckLoop.State, steps: seq<Step>, settling: nat)
    requires CheckLoop.Initial(leftover) && cfg.loop.recheckDelay > 0 && Checks.Sound(cfg.rule)
    requires AlwaysTimely(cfg, Start(balance, leftover), steps, settling)
    ensures var s := Run(cfg, Start(balance, leftover), steps);
      Wallet.Total(s.wallet) <= Wallet.Max(balance,
        (|leftover.chains| + |s.election.ended| + 1) * (settling / cfg.loop.recheckDelay + 1) * cfg.rule.max)
  {
    var s := Start(balance, leftover);
    assert Wallet.Total(s.wallet) == balance;
    RunWithinBound(cfg, s, |leftover.chains|, steps, balance, settling);
  }

  /** In particular: with nothing left over, while no session ends and refills settle before the next
    * check is due, no wallet ever stands above max because of refills. */
  lemma NeverAboveMax(cfg: Config, balance: nat, leftover: CheckLoop.State, steps: seq<Step>, settling: nat)
    requires CheckLoop.Initial(leftover) && leftover.chains == []
    requires Checks.Sound(cfg.rule) && !cfg.election.sessionsEnd && settling < cfg.loop.recheckDelay
    requires AlwaysTimely(cfg, Start(balance, leftover), steps, settling)
    ensures Wallet.Total(Run(cfg, Start(balance, leftover), steps).wallet) <= Wallet.Max(balance, cfg.rule.max)
  {
    ServiceOvershoot(cfg, balance, leftover, steps, settling);
    RunKeepsSeeds(cfg, Start(balance, leftover), 0, steps);
    assert Run(cfg, Start(balance, leftover), steps).election.ended == {};
    OnlyOne(settling, cfg.loop.recheckDelay, cfg.rule.max);
  }

  lemma OnlyOne(settling: nat, d: nat, max: nat)
    requires settling < d
    ensures (0 + 0 + 1) * (settling / d + 1) * max == max
  {
    assert settling / d == 0;
  }
}
