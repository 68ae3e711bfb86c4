/** The bound of System.ServiceOvershoot is reached: runs of the whole service in which processes
  * lose their sessions one after the other, their loops run side by side with those of the jobs
  * left over, and every check reads an empty wallet before the first refill settles. */
module Overshoot {
  import opened Options
  import opened System
  import Election
  import CheckLoop
  import Sweeps
  import Wallet
  import Products
  import Checks

  // ----- Runs of one part are runs of the whole

  lemma {:induction false} RunConcat(cfg: Config, s: State, xs: seq<Step>, ys: seq<Step>)
    ensures Run(cfg, s, xs + ys) == Run(cfg, Run(cfg, s, xs), ys)
    decreases |xs|
  {
    if xs == [] {
      assert xs + ys == ys;
    } else {
      assert (xs + ys)[1..] == xs[1..] + ys;
      RunConcat(cfg, Apply(cfg, s, xs[0]), xs[1..], ys);
    }
  }

  lemma {:induction false} ElectionRuns(cfg: Config, s: State, es: seq<Election.Step>) returns (steps: seq<Step>)
    ensures Run(cfg, s, steps) == s.(election := Election.Run(cfg.election, s.election, es))
    decreases |es|
  {
    if es == [] {
      steps := [];
    } else {
      var rest := ElectionRuns(cfg, Apply(cfg, s, ElectionStep(es[0])), es[1..]);
      steps := [ElectionStep(es[0])] + rest;
      assert steps[1..] == rest;
    }
  }

  lemma {:induction false} LoopRuns(cfg: Config, s: State, ls: seq<CheckLoop.Step>) returns (steps: seq<Step>)
    requires CheckLoop.Bootstrap !in ls
    ensures Run(cfg, s, steps) == s.(loop := CheckLoop.Run(cfg.loop, s.loop, ls))
    decreases |ls|
  {
    if ls == [] {
      steps := [];
    } else {
      assert ls[0] in ls;
      var rest := LoopRuns(cfg, Apply(cfg, s, LoopStep(ls[0])), ls[1..]);
      steps := [LoopStep(ls[0])] + rest;
      assert steps[1..] == rest;
    }
  }

  /** No refill is late if none of the flows is too old at the end. */
  ghost predicate NoneLate(s: CheckLoop.State, settling: nat) {
    forall i, j | 0 <= i < |s.launches| && 0 <= j < |s.launches[i]| :: s.now <= s.launches[i][j] + settling
  }

  lemma StepKeepsEarly(cfg: Config, s: State, step: Step, settling: nat)
    requires NoneLate(Apply(cfg, s, step).loop, settling)
    ensures NoneLate(s.loop, settling)
  {
    var l, l' := s.loop, Apply(cfg, s, step).loop;
    forall i, j | 0 <= i < |l.launches| && 0 <= j < |l.launches[i]|
      ensures l.now <= l.launches[i][j] + settling
    {
      assert l'.launches[i][j] == l.launches[i][j] && l.now <= l'.now;
    }
  }

  lemma {:induction false} EarlyIsTimely(cfg: Config, s: State, steps: seq<Step>, settling: nat)
    requires NoneLate(Run(cfg, s, steps).loop, settling)
    ensures NoneLate(s.loop, settling) && AlwaysTimely(cfg, s, steps, settling)
    decreases |steps|
  {
    if steps != [] {
      EarlyIsTimely(cfg, Apply(cfg, s, steps[0]), steps[1..], settling);
      StepKeepsEarly(cfg, s, steps[0], settling);
    }
  }

  /** The least balance that a check takes for a balance. */
  function Least(rule: Checks.Rule): nat { if rule.zeroIsFailure then 1 else 0 }

  // ----- Leaders that come and go

  function Boots(cfg: Config, n: nat): seq<CheckLoop.Token> { seq(n, _ => CheckLoop.Boot(cfg.loop.obliterations)) }

  /** n chains have been added to those of l, one by each leader. */
  predicate Seeded(cfg: Config, l: CheckLoop.State, l': CheckLoop.State, n: nat) {
    && l'.chains == l.chains + Boots(cfg, n) && l'.launches == l.launches + seq(n, _ => [])
    && l'.running == l.running && l'.now == l.now
  }

  /** n processes have been elected and have seeded, each after the session of the one before. */
  ghost predicate Succession(cfg: Config, s0: State, s: State, n: nat) {
    && n > 0
    && (forall p: nat :: p in s.election.members <==> p < n) && (forall p: nat :: p in s.booted <==> p < n)
    && s.election.lock == Some(n - 1) && s.election.live == {n - 1} && s.election.replies == multiset{}
    && (forall p | p in s.election.ended :: p < n - 1) && |s.election.ended| == n - 1
    && Seeded(cfg, s0.loop, s.loop, n) && s.wallet == s0.wallet
  }

  lemma SeedNext(cfg: Config, l: CheckLoop.State, s: State, n: nat)
    requires n in s.election.members && Election.IsTheOne(s.election.members[n]) && n !in s.booted
    requires Seeded(cfg, l, s.loop, n)
    ensures var s' := Apply(cfg, s, TasksBootstrap(n));
      && s' == s.(booted := s.booted + {n}, seeders := s.seeders + {n}, loop := s'.loop)
      && Seeded(cfg, l, s'.loop, n + 1)
  {
  }

  lemma ElectAndSeed(cfg: Config, l: CheckLoop.State, s: State, n: nat) returns (steps: seq<Step>)
    requires n !in s.election.members && s.election.lock == None && s.election.replies == multiset{} && n !in s.booted
    requires Seeded(cfg, l, s.loop, n)
    ensures var s' := Run(cfg, s, steps);
      && s'.election == Election.Elected(s.election, n) && s'.booted == s.booted + {n} && s'.wallet == s.wallet
      && Seeded(cfg, l, s'.loop, n + 1)
  {
    var elect := ElectionRuns(cfg, s, Election.Elect(n));
    Election.ElectWorks(cfg.election, s.election, n);
    var s1 := Run(cfg, s, elect);
    SeedNext(cfg, l, s1, n);
    RunConcat(cfg, s, elect, [TasksBootstrap(n)]);
    assert Run(cfg, s1, [TasksBootstrap(n)]) == Apply(cfg, s1, TasksBootstrap(n));
    steps := elect + [TasksBootstrap(n)];
  }

  lemma NextLeader(cfg: Config, s0: State, s: State, n: nat) returns (steps: seq<Step>)
    requires cfg.election.sessionsEnd && Succession(cfg, s0, s, n)
    ensures Succession(cfg, s0, Run(cfg, s, steps), n + 1)
  {
    var end := ElectionStep(Election.EndSession(n - 1));
    var s1 := Apply(cfg, s, end);
    assert s1.election == s.election.(live := {}, ended := s.election.ended + {n - 1}, lock := None);
    var rest := ElectAndSeed(cfg, s0.loop, s1, n);
    steps := [end] + rest;
    assert steps[1..] == rest;
  }

  lemma {:induction false} Leaders(cfg: Config, s0: State, n: nat) returns (steps: seq<Step>)
    requires n > 0 && (cfg.election.sessionsEnd || n == 1)
    requires s0.election == Election.START && s0.booted == {}
    ensures Succession(cfg, s0, Run(cfg, s0, steps), n)
  {
    if n == 1 {
      steps := ElectAndSeed(cfg, s0.loop, s0, 0);
    } else {
      var init := Leaders(cfg, s0, n - 1);
      var last := NextLeader(cfg, s0, Run(cfg, s0, init), n - 1);
      RunConcat(cfg, s0, init, last);
      steps := init + last;
    }
  }

  // ----- Loops side by side

  /** The first r launches of a loop that launches as early as it can from time t on. */
  function Times(r: nat, t: nat, d: nat): seq<nat> { seq(r, i => t + i * d) }

  lemma TimesSnoc(r: nat, t: nat, d: nat)
    ensures Times(r, t, d) + [t + r * d] == Times(r + 1, t, d)
  {
  }

  /** All chains stand alike, at a requeue call whose flow has just been launched. */
  predicate Launching(cfg: CheckLoop.Config, s: CheckLoop.State, n: nat, r: nat, t: nat) {
    && |s.chains| == n && Sweeps.Alike(s, 0, n, Sweeps.Requeue(cfg), Times(r + 1, t, cfg.recheckDelay))
    && s.now == t + r * cfg.recheckDelay
  }

  /** Requeue calls side by side each add a job, which is due recheckDelay later. */
  lemma RequeueAll(cfg: CheckLoop.Config, s: CheckLoop.State, n: nat, times: seq<nat>)
      returns (steps: seq<CheckLoop.Step>)
    requires cfg.recheckDelay > 0 && cfg.requeueSkipsActive
    requires |s.chains| == n && Sweeps.Alike(s, 0, n, Sweeps.Requeue(cfg), times)
    ensures CheckLoop.Bootstrap !in steps
    ensures var s' := CheckLoop.Run(cfg, s, steps);
      && |s'.chains| == n && Sweeps.Alike(s', 0, n, CheckLoop.Waiting, times) && s'.now == s.now + cfg.recheckDelay
  {
    var c := CheckLoop.Call(CheckLoop.ReadWaiting, 0, cfg.recheckDelay, true);
    var job := CheckLoop.Delayed(s.now + cfg.recheckDelay);
    var r0 := Sweeps.Sweep(cfg, s, 0, n, c, times);
    var s1 := CheckLoop.Run(cfg, s, r0);
    var r1 := Sweeps.Sweep(cfg, s1, 0, n, c.(phase := CheckLoop.ReadDelayed), times);
    var s2 := CheckLoop.Run(cfg, s1, r1);
    var r2 := Sweeps.Sweep(cfg, s2, 0, n, c.(phase := CheckLoop.Decide), times);
    var s3 := CheckLoop.Run(cfg, s2, r2);
    assert Sweeps.Alike(s3, 0, n, job, times);
    var tick := CheckLoop.Tick(cfg.recheckDelay);
    var s4 := CheckLoop.Apply(cfg, s3, tick);
    assert CheckLoop.Run(cfg, s3, [tick]) == s4;
    var r3 := Sweeps.Sweep(cfg, s4, 0, n, job, times);
    CheckLoop.RunConcat(cfg, s, r0, r1);
    CheckLoop.RunConcat(cfg, s, r0 + r1, r2);
    CheckLoop.RunConcat(cfg, s, r0 + r1 + r2, [tick]);
    CheckLoop.RunConcat(cfg, s, r0 + r1 + r2 + [tick], r3);
    steps := r0 + r1 + r2 + [tick] + r3;
  }

  /** One round: every chain adds its job and launches again. */
  lemma Round(cfg: CheckLoop.Config, s: CheckLoop.State, n: nat, r: nat, t: nat) returns (steps: seq<CheckLoop.Step>)
    requires cfg.recheckDelay > 0 && cfg.requeueSkipsActive && Launching(cfg, s, n, r, t)
    ensures CheckLoop.Bootstrap !in steps && Launching(cfg, CheckLoop.Run(cfg, s, steps), n, r + 1, t)
  {
    var d := cfg.recheckDelay;
    var requeue := RequeueAll(cfg, s, n, Times(r + 1, t, d));
    var s1 := CheckLoop.Run(cfg, s, requeue);
    var launch := Sweeps.LaunchAll(cfg, s1, 0, n, Times(r + 1, t, d));
    Products.OneMore(r, d);
    TimesSnoc(r + 1, t, d);
    CheckLoop.RunConcat(cfg, s, requeue, launch);
    steps := requeue + launch;
  }

  lemma {:induction false} Rounds(cfg: CheckLoop.Config, s: CheckLoop.State, n: nat, r: nat, t: nat)
      returns (steps: seq<CheckLoop.Step>)
    requires cfg.recheckDelay > 0 && cfg.requeueSkipsActive && Launching(cfg, s, n, 0, t)
    ensures CheckLoop.Bootstrap !in steps && Launching(cfg, CheckLoop.Run(cfg, s, steps), n, r, t)
  {
    if r == 0 {
      steps := [];
    } else {
      var init := Rounds(cfg, s, n, r - 1, t);
      var last := Round(cfg, CheckLoop.Run(cfg, s, init), n, r - 1, t);
      CheckLoop.RunConcat(cfg, s, init, last);
      steps := init + last;
    }
  }

  /** n bootstrappers, beside k chains whose jobs have just launched, launch too. */
  lemma SeedsJoin(cfg: CheckLoop.Config, s: CheckLoop.State, k: nat, n: nat) returns (steps: seq<CheckLoop.Step>)
    requires Sweeps.Alike(s, 0, k, Sweeps.Requeue(cfg), [s.now]) && s.running == 0 && |s.chains| == k + n
    requires Sweeps.Alike(s, k, k + n, CheckLoop.Boot(cfg.obliterations), [])
    ensures CheckLoop.Bootstrap !in steps && Launching(cfg, CheckLoop.Run(cfg, s, steps), k + n, 0, s.now)
  {
    var seeds := Sweeps.SeedsSideBySide(cfg, s, k, k + n, cfg.obliterations);
    var s1 := CheckLoop.Run(cfg, s, seeds);
    var launch := Sweeps.LaunchAll(cfg, s1, k, k + n, []);
    CheckLoop.RunConcat(cfg, s, seeds, launch);
    steps := seeds + launch;
    assert Times(1, s.now, cfg.recheckDelay) == [s.now];
  }

  /** Leftover jobs launch, n leaders come and go, and all chains launch r + 1 flows each. */
  lemma ManyLaunches(cfg: Config, balance: nat, leftover: CheckLoop.State, n: nat, r: nat)
      returns (steps: seq<Step>, t: nat)
    requires CheckLoop.Initial(leftover) && cfg.loop.recheckDelay > 0 && cfg.loop.requeueSkipsActive
    requires n > 0 && (cfg.election.sessionsEnd || n == 1)
    ensures var s := Run(cfg, Start(balance, leftover), steps);
      && |s.election.ended| == n - 1 && s.wallet == Wallet.State(balance, map[], {})
      && Launching(cfg.loop, s.loop, |leftover.chains| + n, r, t)
  {
    var s0, k := Start(balance, leftover), |leftover.chains|;
    var ls := Sweeps.LeftoversLaunch(cfg.loop, leftover);
    var first := LoopRuns(cfg, s0, ls);
    var s1 := Run(cfg, s0, first);
    t := s1.loop.now;
    var elect := Leaders(cfg, s1, n);
    var s2 := Run(cfg, s1, elect);
    var js := SeedsJoin(cfg.loop, s2.loop, k, n);
    var join := LoopRuns(cfg, s2, js);
    var s3 := Run(cfg, s2, join);
    var rs := Rounds(cfg.loop, s3.loop, k + n, r, t);
    var rounds := LoopRuns(cfg, s3, rs);
    RunConcat(cfg, s0, first, elect);
    RunConcat(cfg, s0, first + elect, join);
    RunConcat(cfg, s0, first + elect + join, rounds);
    steps := first + elect + join + rounds;
  }

  lemma LaunchingIsEarly(cfg: CheckLoop.Config, s: CheckLoop.State, n: nat, r: nat, t: nat, settling: nat)
    requires Launching(cfg, s, n, r, t) && r * cfg.recheckDelay <= settling && |s.launches| == n
    ensures NoneLate(s, settling)
  {
  }

  // ----- Checks of a wallet that is as good as empty

  lemma OneCheckAsks(cfg: Config, s: State, f: Wallet.Flow)
    requires Launched(s.loop, f) && f !in s.wallet.checked && f !in s.wallet.outstanding
    requires s.wallet.balance == Least(cfg.rule) < cfg.rule.min
    ensures var s' := Apply(cfg, s, WalletStep(Wallet.Check(f, true)));
      && s' == s.(wallet := s'.wallet) && s'.wallet.balance == s.wallet.balance
      && s'.wallet.checked == s.wallet.checked + {f}
      && s'.wallet.outstanding == s.wallet.outstanding[f := cfg.rule.max - Least(cfg.rule)]
      && Wallet.Total(s'.wallet) == Wallet.Total(s.wallet) + (cfg.rule.max - Least(cfg.rule))
  {
    Wallet.PendingAdd(s.wallet.outstanding, f, cfg.rule.max - Least(cfg.rule));
  }

  /** Flows before the m-th of chain c, in the order of chains. */
  predicate Before(f: Wallet.Flow, c: nat, m: nat) { f.0 < c || (f.0 == c && f.1 < m) }

  ghost predicate CheckedBefore(cfg: Config, s: State, c: nat, m: nat) {
    && s.wallet.balance == Least(cfg.rule)
    && (forall f | f in s.wallet.checked :: Before(f, c, m))
    && (forall f | f in s.wallet.outstanding :: Before(f, c, m))
  }

  lemma {:induction false} ChainAsks(cfg: Config, s: State, c: nat, m: nat) returns (steps: seq<Step>)
    requires CheckedBefore(cfg, s, c, 0) && Least(cfg.rule) < cfg.rule.min
    requires c < |s.loop.launches| && m <= |s.loop.launches[c]|
    ensures var s' := Run(cfg, s, steps);
      && s' == s.(wallet := s'.wallet) && CheckedBefore(cfg, s', c, m)
      && Wallet.Total(s'.wallet) == Wallet.Total(s.wallet) + m * (cfg.rule.max - Least(cfg.rule))
  {
    if m == 0 {
      steps := [];
    } else {
      var init := ChainAsks(cfg, s, c, m - 1);
      var s1 := Run(cfg, s, init);
      var check := WalletStep(Wallet.Check((c, m - 1), true));
      OneCheckAsks(cfg, s1, (c, m - 1));
      assert Run(cfg, s1, [check]) == Apply(cfg, s1, check);
      RunConcat(cfg, s, init, [check]);
      Products.OneMore(m - 1, cfg.rule.max - Least(cfg.rule));
      steps := init + [check];
    }
  }

  lemma {:induction false} AllAsk(cfg: Config, s: State, n: nat, m: nat) returns (steps: seq<Step>)
    requires s.wallet == Wallet.State(Least(cfg.rule), map[], {}) && Least(cfg.rule) < cfg.rule.min
    requires n <= |s.loop.launches| && forall c | 0 <= c < n :: |s.loop.launches[c]| == m
    ensures var s' := Run(cfg, s, steps);
      && s' == s.(wallet := s'.wallet) && CheckedBefore(cfg, s', n, 0)
      && Wallet.Total(s'.wallet) == Least(cfg.rule) + n * (m * (cfg.rule.max - Least(cfg.rule)))
  {
    if n == 0 {
      steps := [];
    } else {
      var init := AllAsk(cfg, s, n - 1, m);
      var last := ChainAsks(cfg, Run(cfg, s, init), n - 1, m);
      RunConcat(cfg, s, init, last);
      Products.OneMore(n - 1, m * (cfg.rule.max - Least(cfg.rule)));
      steps := init + last;
    }
  }

  // ----- All refills settle

  lemma {:induction false} AllSettle(cfg: Config, s: State) returns (steps: seq<Step>)
    ensures var s' := Run(cfg, s, steps);
      && s' == s.(wallet := s'.wallet) && s'.wallet.outstanding == map[]
      && s'.wallet.balance == Wallet.Total(s.wallet)
    decreases |s.wallet.outstanding|
  {
    if s.wallet.outstanding == map[] {
      steps := [];
    } else {
      var f :| f in s.wallet.outstanding;
      var settle := WalletStep(Wallet.Settle(f));
      Wallet.PendingRemove(s.wallet.outstanding, f);
      assert (s.wallet.outstanding - {f}).Keys == s.wallet.outstanding.Keys - {f};
      var rest := AllSettle(cfg, Apply(cfg, s, settle));
      steps := [settle] + rest;
      assert steps[1..] == rest;
    }
  }

  /** The balance itself stands at what n chains of r + 1 flows each have asked for. */
  ghost predicate AtStack(cfg: Config, s: State, n: nat, r: nat) {
    && s.wallet.outstanding == map[]
    && s.wallet.balance == Least(cfg.rule) + n * ((r + 1) * (cfg.rule.max - Least(cfg.rule)))
  }

  /** All checks read the wallet at its least, and all refills settle after them. */
  lemma AskAndSettle(cfg: Config, s: State, n: nat, r: nat, t: nat) returns (steps: seq<Step>)
    requires Least(cfg.rule) < cfg.rule.min && s.wallet == Wallet.State(Least(cfg.rule), map[], {})
    requires Launching(cfg.loop, s.loop, n, r, t)
    ensures var s' := Run(cfg, s, steps);
      s' == s.(wallet := s'.wallet) && AtStack(cfg, s', n, r)
  {
    var ask := AllAsk(cfg, s, n, r + 1);
    var settle := AllSettle(cfg, Run(cfg, s, ask));
    RunConcat(cfg, s, ask, settle);
    steps := ask + settle;
  }

  lemma StackRefills(cfg: Config, leftover: CheckLoop.State, n: nat, r: nat, settling: nat)
      returns (steps: seq<Step>)
    requires CheckLoop.Initial(leftover) && cfg.loop.recheckDelay > 0 && cfg.loop.requeueSkipsActive
    requires r * cfg.loop.recheckDelay <= settling
    requires n > 0 && (cfg.election.sessionsEnd || n == 1) && Least(cfg.rule) < cfg.rule.min
    ensures AlwaysTimely(cfg, Start(Least(cfg.rule), leftover), steps, settling)
    ensures var s := Run(cfg, Start(Least(cfg.rule), leftover), steps);
      |s.election.ended| == n - 1 && AtStack(cfg, s, |leftover.chains| + n, r)
  {
    var s0 := Start(Least(cfg.rule), leftover);
    var launch, t := ManyLaunches(cfg, Least(cfg.rule), leftover, n, r);
    var s1 := Run(cfg, s0, launch);
    var ask := AskAndSettle(cfg, s1, |leftover.chains| + n, r, t);
    RunConcat(cfg, s0, launch, ask);
    steps := launch + ask;
    LaunchingIsEarly(cfg.loop, s1.loop, |leftover.chains| + n, r, t, settling);
    EarlyIsTimely(cfg, s0, steps, settling);
  }

  /** All refills have settled, and the balance stands at the bound of ServiceOvershoot; where a
    * check cannot read zero, each refill is smaller by one. */
  ghost predicate AtBound(cfg: Config, s: State, leftovers: nat, settling: nat)
    requires cfg.loop.recheckDelay > 0
  {
    && s.wallet.outstanding == map[]
    && s.wallet.balance == Least(cfg.rule) + Stacked(cfg, s, leftovers, settling) * (cfg.rule.max - Least(cfg.rule))
  }

  lemma StackIsBound(cfg: Config, s: State, leftovers: nat, r: nat, settling: nat)
    requires cfg.loop.recheckDelay > 0 && r == settling / cfg.loop.recheckDelay
    requires AtStack(cfg, s, leftovers + |s.election.ended| + 1, r)
    ensures AtBound(cfg, s, leftovers, settling)
  {
    var n := leftovers + |s.election.ended| + 1;
    assert Stacked(cfg, s, leftovers, settling) == n * (r + 1);
    Products.Associate(n, r + 1, cfg.rule.max - Least(cfg.rule));
  }

  /** For all jobs left over, every number of sessions that end and every settling time, some run in
    * which no refill is late ends at the bound of ServiceOvershoot. */
  lemma ServiceBoundIsReached(cfg: Config, leftover: CheckLoop.State, ends: nat, settling: nat)
      returns (steps: seq<Step>)
    requires CheckLoop.Initial(leftover) && cfg.loop.recheckDelay > 0 && cfg.loop.requeueSkipsActive
    requires (cfg.election.sessionsEnd || ends == 0) && Least(cfg.rule) < cfg.rule.min
    ensures AlwaysTimely(cfg, Start(Least(cfg.rule), leftover), steps, settling)
    ensures var s := Run(cfg, Start(Least(cfg.rule), leftover), steps);
      |s.election.ended| == ends && AtBound(cfg, s, |leftover.chains|, settling)
  {
    var r := Products.Quotient(settling, cfg.loop.recheckDelay);
    steps := StackRefills(cfg, leftover, ends + 1, r, settling);
    StackIsBound(cfg, Run(cfg, Start(Least(cfg.rule), leftover), steps), |leftover.chains|, r, settling);
  }

  // ----- Exactly when no wallet stands above max

  ghost predicate StaysWithinMax(
      cfg: Config, balance: nat, leftover: CheckLoop.State, steps: seq<Step>, settling: nat) {
    AlwaysTimely(cfg, Start(balance, leftover), steps, settling)
    ==> Wallet.Total(Run(cfg, Start(balance, leftover), steps).wallet) <= Wallet.Max(balance, cfg.rule.max)
  }

  lemma {:induction false} NeverAsks(cfg: Config, s: State, steps: seq<Step>)
    requires cfg.rule.min <= Least(cfg.rule) && s.wallet.outstanding == map[] && s.wallet.balance >= 0
    ensures var w := Run(cfg, s, steps).wallet; w.outstanding == map[] && w.balance <= s.wallet.balance
    decreases |steps|
  {
    if steps != [] {
      NeverAsks(cfg, Apply(cfg, s, steps[0]), steps[1..]);
    }
  }

  /** Nothing is left over, no session ends, and refills settle before the next check is due. */
  predicate OneRefillAtATime(cfg: Config, leftover: CheckLoop.State, settling: nat) {
    leftover.chains == [] && !cfg.election.sessionsEnd && settling < cfg.loop.recheckDelay
  }

  /** Refills never take a wallet above max, in all runs in which none is later than `settling`,
    * exactly when nothing is left over at the start, no session ends, and every refill settles
    * before the next check is due; but for a wallet that never asks for any. */
  lemma NeverAboveMaxIff(cfg: Config, leftover: CheckLoop.State, settling: nat)
    requires CheckLoop.Initial(leftover)
    requires cfg.loop.recheckDelay > 0 && cfg.loop.requeueSkipsActive && Checks.Sound(cfg.rule)
    ensures (forall balance, steps :: StaysWithinMax(cfg, balance, leftover, steps, settling))
       <==> OneRefillAtATime(cfg, leftover, settling) || cfg.rule.min <= Least(cfg.rule)
  {
    if OneRefillAtATime(cfg, leftover, settling) || cfg.rule.min <= Least(cfg.rule) {
      forall balance, steps
        ensures StaysWithinMax(cfg, balance, leftover, steps, settling)
      {
        if cfg.rule.min <= Least(cfg.rule) {
          NeverAsks(cfg, Start(balance, leftover), steps);
        } else if AlwaysTimely(cfg, Start(balance, leftover), steps, settling) {
          NeverAboveMax(cfg, balance, leftover, steps, settling);
        }
      }
    } else {
      var steps := AboveMax(cfg, leftover, settling);
    }
  }

  /** Two chains, or two launches of one, are enough. */
  lemma AboveMax(cfg: Config, leftover: CheckLoop.State, settling: nat) returns (steps: seq<Step>)
    requires CheckLoop.Initial(leftover) && cfg.loop.recheckDelay > 0 && cfg.loop.requeueSkipsActive
    requires Least(cfg.rule) < cfg.rule.min <= cfg.rule.max && !OneRefillAtATime(cfg, leftover, settling)
    ensures !StaysWithinMax(cfg, Least(cfg.rule), leftover, steps, settling)
  {
    var n := if cfg.election.sessionsEnd then 2 else 1;
    var r := if cfg.election.sessionsEnd || leftover.chains != [] then 0 else 1;
    steps := StackRefills(cfg, leftover, n, r, settling);
    StackIsTooHigh(cfg, Run(cfg, Start(Least(cfg.rule), leftover), steps), |leftover.chains| + n, r);
  }

  lemma StackIsTooHigh(cfg: Config, s: State, n: nat, r: nat)
    requires Least(cfg.rule) < cfg.rule.min <= cfg.rule.max && AtStack(cfg, s, n, r)
    requires n >= 2 || (n == 1 && r == 1)
    ensures Wallet.Total(s.wallet) > cfg.rule.max
  {
    var x := cfg.rule.max - Least(cfg.rule);
    if n >= 2 {
      Products.Monotone(1, r + 1, x);
      Products.Monotone(2, n, (r + 1) * x);
    }
    assert n * ((r + 1) * x) >= 2 * x;
  }
}
