/** Runs in which chains that stand alike move on side by side, each before any takes its next step. */
module Sweeps {
  import opened CheckLoop

  /** What an advance makes of a token while every count that it reads is zero. */
  function After(cfg: Config, now: nat, t: Token): Token {
    match t
    case Boot(k) => if k > 0 then Boot(k - 1) else Call(ReadWaiting, 0, 0, false)
    case Call(ReadWaiting, _, _, _) => t.(phase := ReadDelayed)
    case Call(ReadDelayed, _, _, skipActive) => t.(phase := if skipActive then Decide else ReadActive)
    case Call(ReadActive, _, _, _) => t.(phase := Decide)
    case Call(Decide, _, delay, _) => NewJob(now, delay)
    case Delayed(readyAt) => if readyAt <= now then Waiting else t
    case Waiting => Picked(true)
    case Picked(_) => Call(ReadWaiting, 0, cfg.recheckDelay, cfg.requeueSkipsActive)
    case _ => t
  }

  function TimesAfter(now: nat, t: Token, times: seq<nat>): seq<nat> {
    if t.Picked? then times + [now] else times
  }

  predicate Reads(t: Token) { t.Boot? || (t.Call? && !t.phase.Decide?) }

  /** Outside the chains from lo to hi there is no job that a count could find. */
  predicate Calm(s: State, lo: nat, hi: nat) {
    forall i | 0 <= i < |s.chains| && !(lo <= i < hi) :: !Unprocessed(s.chains[i])
  }

  /** The counts that a sweep reads are zero: calls have counted nothing, no other chain has a job,
    * and no job of an earlier flow is running while the active count is read. */
  predicate Uncounted(s: State, lo: nat, hi: nat, t: Token) {
    && (t.Call? ==> t.sum == 0)
    && (Reads(t) ==> Calm(s, lo, hi))
    && (t.Boot? || (t.Call? && (!t.skipActive || t.phase.ReadActive?)) ==> s.running == 0)
  }

  /** The chains from lo to hi stand at t, all with the same launches. */
  predicate Alike(s: State, lo: nat, hi: nat, t: Token, times: seq<nat>) {
    && lo <= hi <= |s.chains| == |s.launches|
    && forall i | lo <= i < hi :: s.chains[i] == t && s.launches[i] == times
  }

  /** Nothing but these chains, and the jobs running, has changed. */
  predicate Elsewhere(s: State, s': State, lo: nat, hi: nat) {
    && |s'.chains| == |s.chains| && |s'.launches| == |s.launches|
    && s'.now == s.now && s'.bootstraps == s.bootstraps
    && (forall i | 0 <= i < |s.chains| && !(lo <= i < hi) :: s'.chains[i] == s.chains[i])
    && (forall i | 0 <= i < |s.launches| && !(lo <= i < hi) :: s'.launches[i] == s.launches[i])
  }

  lemma NoneCounted(s: State)
    requires forall i | 0 <= i < |s.chains| :: !Unprocessed(s.chains[i])
    ensures WaitingCount(s) == DelayedCount(s) == 0 && ActiveCount(s) == s.running
  {
    if WaitingCount(s) > 0 { var i := SumPositive(WaitingJobs, s.chains); }
    if DelayedCount(s) > 0 { var i := SumPositive(DelayedJobs, s.chains); }
    if Sum(ListedJobs, s.chains) > 0 { var i := SumPositive(ListedJobs, s.chains); }
  }

  /** Of the chains from lo to hi those before j have moved on. */
  predicate Midway(cfg: Config, s: State, lo: nat, j: nat, hi: nat, t: Token, times: seq<nat>) {
    && lo <= j <= hi
    && Alike(s, lo, j, After(cfg, s.now, t), TimesAfter(s.now, t, times))
    && Alike(s, j, hi, t, times)
    && Uncounted(s, lo, hi, t)
  }

  lemma OneChanges(cfg: Config, s: State, lo: nat, j: nat, hi: nat, t: Token, times: seq<nat>)
    requires j < hi && Midway(cfg, s, lo, j, hi, t, times)
    ensures var s' := AdvanceChain(cfg, s, j);
      && Elsewhere(s, s', j, j + 1) && s'.chains[j] == After(cfg, s.now, t)
      && s'.launches[j] == TimesAfter(s.now, t, times) && (!t.Picked? ==> s'.running == s.running)
  {
    if Reads(t) {
      forall i | 0 <= i < |s.chains|
        ensures !Unprocessed(s.chains[i])
      {
      }
      NoneCounted(s);
    }
  }

  lemma OneMovesOn(cfg: Config, s: State, lo: nat, j: nat, hi: nat, t: Token, times: seq<nat>)
    requires j < hi && Midway(cfg, s, lo, j, hi, t, times)
    ensures var s' := Apply(cfg, s, Advance(j));
      && Midway(cfg, s', lo, j + 1, hi, t, times)
      && Elsewhere(s, s', lo, hi) && (!t.Picked? ==> s'.running == s.running)
  {
    OneChanges(cfg, s, lo, j, hi, t, times);
  }

  lemma {:induction false} RestMoveOn(cfg: Config, s: State, lo: nat, j: nat, hi: nat, t: Token, times: seq<nat>)
      returns (steps: seq<Step>)
    requires Midway(cfg, s, lo, j, hi, t, times)
    ensures Bootstrap !in steps
    ensures var s' := Run(cfg, s, steps);
      && Midway(cfg, s', lo, hi, hi, t, times)
      && Elsewhere(s, s', lo, hi) && (!t.Picked? ==> s'.running == s.running)
    decreases hi - j
  {
    if j == hi {
      steps := [];
    } else {
      OneMovesOn(cfg, s, lo, j, hi, t, times);
      var rest := RestMoveOn(cfg, Apply(cfg, s, Advance(j)), lo, j + 1, hi, t, times);
      steps := [Advance(j)] + rest;
      assert steps[1..] == rest;
    }
  }

  /** All chains from lo to hi take one step each. */
  lemma Sweep(cfg: Config, s: State, lo: nat, hi: nat, t: Token, times: seq<nat>) returns (steps: seq<Step>)
    requires Alike(s, lo, hi, t, times) && Uncounted(s, lo, hi, t)
    ensures Bootstrap !in steps
    ensures var s' := Run(cfg, s, steps);
      && Alike(s', lo, hi, After(cfg, s.now, t), TimesAfter(s.now, t, times))
      && Elsewhere(s, s', lo, hi) && (!t.Picked? ==> s'.running == s.running)
  {
    steps := RestMoveOn(cfg, s, lo, lo, hi, t, times);
  }

  /** What t has become after k sweeps none of which launches. */
  function AfterMany(cfg: Config, now: nat, t: Token, k: nat): Token
    decreases k
  {
    if k == 0 then t else AfterMany(cfg, now, After(cfg, now, t), k - 1)
  }

  /** k sweeps from t on that neither launch nor count anything when no job is running. */
  predicate Quietly(cfg: Config, now: nat, t: Token, k: nat)
    decreases k
  {
    k > 0 ==> (t.Call? ==> t.sum == 0) && !t.Picked? && Quietly(cfg, now, After(cfg, now, t), k - 1)
  }

  lemma {:induction false} SweepMany(cfg: Config, s: State, lo: nat, hi: nat, t: Token, times: seq<nat>, k: nat)
      returns (steps: seq<Step>)
    requires Alike(s, lo, hi, t, times) && Calm(s, lo, hi) && s.running == 0 && Quietly(cfg, s.now, t, k)
    ensures Bootstrap !in steps
    ensures var s' := Run(cfg, s, steps);
      && Alike(s', lo, hi, AfterMany(cfg, s.now, t, k), times)
      && Elsewhere(s, s', lo, hi) && s'.running == 0
    decreases k
  {
    if k == 0 {
      steps := [];
    } else {
      var first := Sweep(cfg, s, lo, hi, t, times);
      var rest := SweepMany(cfg, Run(cfg, s, first), lo, hi, After(cfg, s.now, t), times, k - 1);
      RunConcat(cfg, s, first, rest);
      steps := first + rest;
    }
  }

  lemma {:induction false} BootsBecomeJobs(cfg: Config, now: nat, k: nat)
    ensures Quietly(cfg, now, Boot(k), k + 5) && AfterMany(cfg, now, Boot(k), k + 5) == Waiting
  {
    if k > 0 {
      BootsBecomeJobs(cfg, now, k - 1);
      assert After(cfg, now, Boot(k)) == Boot(k - 1) && k + 5 - 1 == k - 1 + 5;
    } else {
      var c := Call(ReadWaiting, 0, 0, false);
      var c1, c2, c3 := c.(phase := ReadDelayed), c.(phase := ReadActive), c.(phase := Decide);
      assert Quietly(cfg, now, c3, 1) && AfterMany(cfg, now, c3, 1) == Waiting;
      assert Quietly(cfg, now, c2, 2) && AfterMany(cfg, now, c2, 2) == Waiting;
      assert Quietly(cfg, now, c1, 3) && AfterMany(cfg, now, c1, 3) == Waiting;
      assert Quietly(cfg, now, c, 4) && AfterMany(cfg, now, c, 4) == Waiting;
    }
  }

  /** Bootstrappers side by side each put a job into the queue. */
  lemma SeedsSideBySide(cfg: Config, s: State, lo: nat, hi: nat, k: nat) returns (steps: seq<Step>)
    requires Alike(s, lo, hi, Boot(k), []) && Calm(s, lo, hi) && s.running == 0
    ensures Bootstrap !in steps
    ensures var s' := Run(cfg, s, steps);
      Alike(s', lo, hi, Waiting, []) && Elsewhere(s, s', lo, hi) && s'.running == 0
  {
    BootsBecomeJobs(cfg, s.now, k);
    steps := SweepMany(cfg, s, lo, hi, Boot(k), [], k + 5);
  }

  function Requeue(cfg: Config): Token { Call(ReadWaiting, 0, cfg.recheckDelay, cfg.requeueSkipsActive) }

  /** Waiting jobs are picked and launch their flows. */
  lemma LaunchAll(cfg: Config, s: State, lo: nat, hi: nat, times: seq<nat>) returns (steps: seq<Step>)
    requires Alike(s, lo, hi, Waiting, times)
    ensures Bootstrap !in steps
    ensures var s' := Run(cfg, s, steps);
      Alike(s', lo, hi, Requeue(cfg), times + [s.now]) && Elsewhere(s, s', lo, hi)
  {
    var pick := Sweep(cfg, s, lo, hi, Waiting, times);
    var process := Sweep(cfg, Run(cfg, s, pick), lo, hi, Picked(true), times);
    RunConcat(cfg, s, pick, process);
    steps := pick + process;
  }

  // ----- Jobs left over

  lemma {:induction false} CompleteAll(cfg: Config, s: State) returns (steps: seq<Step>)
    ensures Bootstrap !in steps && Run(cfg, s, steps) == s.(running := 0)
    decreases s.running
  {
    if s.running == 0 {
      steps := [];
    } else {
      var rest := CompleteAll(cfg, Apply(cfg, s, Complete));
      steps := [Complete] + rest;
      assert steps[1..] == rest;
    }
  }

  /** From here on the chains are jobs that wait, or will wait once enough time has passed. */
  predicate JobsFrom(s: State, j: nat) {
    && j <= |s.chains| == |s.launches|
    && (forall i | 0 <= i < j :: s.chains[i] == Waiting)
    && (forall i | j <= i < |s.chains| :: s.chains[i].Waiting? || s.chains[i].Delayed?)
    && (forall i | 0 <= i < |s.chains| :: s.launches[i] == [])
  }

  /** Time passes until every job is due, and each waits. */
  lemma {:induction false} AllDue(cfg: Config, s: State, j: nat) returns (steps: seq<Step>)
    requires JobsFrom(s, j)
    ensures Bootstrap !in steps
    ensures var s' := Run(cfg, s, steps);
      Alike(s', 0, |s.chains|, Waiting, []) && |s'.chains| == |s.chains| && s'.bootstraps == s.bootstraps
    decreases |s.chains| - j
  {
    if j == |s.chains| {
      steps := [];
    } else if s.chains[j].Waiting? {
      steps := AllDue(cfg, s, j + 1);
    } else {
      var tick := Tick(s.chains[j].readyAt);
      var s1 := Apply(cfg, s, tick);
      var s2 := Apply(cfg, s1, Advance(j));
      var rest := AllDue(cfg, s2, j + 1);
      steps := [tick, Advance(j)] + rest;
      assert steps[1..] == [Advance(j)] + rest && steps[1..][1..] == rest;
    }
  }

  /** Every job left over launches a flow, all at one time, and completes before its requeue call
    * reads anything. */
  lemma LeftoversLaunch(cfg: Config, s: State) returns (steps: seq<Step>)
    requires Initial(s)
    ensures Bootstrap !in steps
    ensures var s' := Run(cfg, s, steps);
      && |s'.chains| == |s.chains| && Alike(s', 0, |s.chains|, Requeue(cfg), [s'.now])
      && s'.running == 0 && s'.bootstraps == s.bootstraps
  {
    var due := AllDue(cfg, s, 0);
    var s1 := Run(cfg, s, due);
    var launch := LaunchAll(cfg, s1, 0, |s.chains|, []);
    var s2 := Run(cfg, s1, launch);
    var complete := CompleteAll(cfg, s2);
    RunConcat(cfg, s, due, launch);
    RunConcat(cfg, s, due + launch, complete);
    steps := due + launch + complete;
  }
}
