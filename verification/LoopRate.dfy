/** How often the check loop can launch flows. */
module LoopRate {
  import opened CheckLoop
  import opened LoopSafety
  import Products

  ghost predicate Gapped(times: seq<nat>, gap: nat) {
    forall j | 0 < j < |times| :: times[j - 1] + gap <= times[j]
  }

  /** How many of the times lie in the window from `from` to `to`, both included. */
  function CountIn(times: seq<nat>, from: nat, to: nat): nat {
    if times == [] then 0
    else
      var t := times[|times| - 1];
      CountIn(times[..|times| - 1], from, to) + if from <= t <= to then 1 else 0
  }

  function TotalIn(launches: seq<seq<nat>>, from: nat, to: nat): nat {
    if launches == [] then 0
    else TotalIn(launches[..|launches| - 1], from, to) + CountIn(launches[|launches| - 1], from, to)
  }

  // ----- Each chain's launches are recheckDelay apart

  /** What the token of a chain says about when that chain launched last. */
  ghost predicate TokenWaits(cfg: Config, s: State, t: Token, last: nat) {
    match t
    case Boot(_) => false
    case Call(_, _, delay, _) => delay == cfg.recheckDelay && last <= s.now
    case Delayed(readyAt) => last + cfg.recheckDelay <= readyAt
    case Declined => true
    case Obliterated => true
    case _ => last + cfg.recheckDelay <= s.now
  }

  ghost predicate ChainWaits(cfg: Config, s: State, i: nat)
    requires i < |s.chains| && i < |s.launches|
  {
    var times := s.launches[i];
    && Gapped(times, cfg.recheckDelay)
    && (times != [] ==> TokenWaits(cfg, s, s.chains[i], times[|times| - 1]))
  }

  ghost predicate RateInv(cfg: Config, s: State) {
    && |s.launches| == |s.chains|
    && forall i :: 0 <= i < |s.chains| ==> ChainWaits(cfg, s, i)
  }

  ghost predicate LaunchedByNow(s: State) {
    forall i, j :: 0 <= i < |s.launches| && 0 <= j < |s.launches[i]| ==> s.launches[i][j] <= s.now
  }

  lemma StepKeepsLaunched(cfg: Config, s: State, step: Step)
    requires LaunchedByNow(s)
    ensures LaunchedByNow(Apply(cfg, s, step))
  {
  }

  /** A chain is untouched by the steps of another, but for an obliterate. */
  lemma OtherWaits(cfg: Config, s: State, i: nat, j: nat)
    requires RateInv(cfg, s) && i < |s.chains| && j < |s.chains| && j != i
    ensures ChainWaits(cfg, AdvanceChain(cfg, s, i), j)
  {
    var s' := AdvanceChain(cfg, s, i);
    assert ChainWaits(cfg, s, j);
    assert s'.launches[j] == s.launches[j] && s'.now == s.now;
    assert s'.chains[j] == s.chains[j] || s'.chains[j] == WipeToken(s.chains[j]);
  }

  lemma OwnWaits(cfg: Config, s: State, i: nat)
    requires RateInv(cfg, s) && i < |s.chains|
    ensures ChainWaits(cfg, AdvanceChain(cfg, s, i), i)
  {
    assert ChainWaits(cfg, s, i);
    var s' := AdvanceChain(cfg, s, i);
    assert s'.now == s.now && |s'.launches| == |s.launches|;
    if s.chains[i].Picked? {
      assert s'.launches[i] == s.launches[i] + [s.now];
    } else {
      assert s'.launches[i] == s.launches[i];
    }
  }

  lemma AdvanceKeepsRate(cfg: Config, s: State, i: nat)
    requires RateInv(cfg, s) && i < |s.chains|
    ensures RateInv(cfg, AdvanceChain(cfg, s, i))
  {
    var s' := AdvanceChain(cfg, s, i);
    forall j | 0 <= j < |s'.chains|
      ensures ChainWaits(cfg, s', j)
    {
      if j == i { OwnWaits(cfg, s, i); } else { OtherWaits(cfg, s, i, j); }
    }
  }

  lemma StepKeepsRate(cfg: Config, s: State, step: Step)
    requires RateInv(cfg, s)
    ensures RateInv(cfg, Apply(cfg, s, step))
  {
    var s' := Apply(cfg, s, step);
    if step.Advance? {
      if step.chain < |s.chains| { AdvanceKeepsRate(cfg, s, step.chain); }
    } else {
      forall j | 0 <= j < |s'.chains|
        ensures ChainWaits(cfg, s', j)
      {
        if j < |s.chains| { assert ChainWaits(cfg, s, j); }
      }
    }
  }

  lemma {:induction false} RunKeepsRate(cfg: Config, s: State, steps: seq<Step>)
    requires RateInv(cfg, s)
    ensures RateInv(cfg, Run(cfg, s, steps))
    decreases |steps|
  {
    if steps != [] {
      StepKeepsRate(cfg, s, steps[0]);
      RunKeepsRate(cfg, Apply(cfg, s, steps[0]), steps[1..]);
    }
  }

  /** In every run, two launches of one chain are at least recheckDelay apart. */
  lemma LaunchesAreApart(cfg: Config, s: State, steps: seq<Step>, i: nat, j: nat)
    requires Initial(s)
    requires var r := Run(cfg, s, steps); i < |r.launches| && j + 1 < |r.launches[i]|
    ensures var r := Run(cfg, s, steps); r.launches[i][j] + cfg.recheckDelay <= r.launches[i][j + 1]
  {
    RunKeepsRate(cfg, s, steps);
    var r := Run(cfg, s, steps);
    assert ChainWaits(cfg, r, i);
    assert Gapped(r.launches[i], cfg.recheckDelay);
    assert r.launches[i][j + 1 - 1] + cfg.recheckDelay <= r.launches[i][j + 1];
  }

  // ----- The window bound

  lemma {:induction false} SpreadOut(times: seq<nat>, gap: nat, from: nat, to: nat)
    requires Gapped(times, gap)
    ensures var n := CountIn(times, from, to);
      n > 0 ==> from + (n - 1) * gap <= to && from + (n - 1) * gap <= times[|times| - 1]
  {
    if times != [] {
      var init := times[..|times| - 1];
      SpreadOut(init, gap, from, to);
      var m := CountIn(init, from, to);
      if m > 0 {
        assert init[|init| - 1] == times[|times| - 2];
        Products.OneMore(m - 1, gap);
      }
    }
  }

  lemma ChainBound(times: seq<nat>, gap: nat, from: nat, to: nat)
    requires gap > 0 && from <= to && Gapped(times, gap)
    ensures CountIn(times, from, to) <= (to - from) / gap + 1
  {
    var n := CountIn(times, from, to);
    SpreadOut(times, gap, from, to);
    if n > 0 {
      Products.DivideBound(n, gap, to - from);
    }
  }

  lemma {:induction false} TotalBound(launches: seq<seq<nat>>, gap: nat, from: nat, to: nat)
    requires gap > 0 && from <= to
    requires forall i | 0 <= i < |launches| :: Gapped(launches[i], gap)
    ensures TotalIn(launches, from, to) <= |launches| * ((to - from) / gap + 1)
  {
    if launches != [] {
      var n, k := |launches| - 1, (to - from) / gap + 1;
      TotalBound(launches[..n], gap, from, to);
      ChainBound(launches[n], gap, from, to);
      Products.OneMore(n, k);
    }
  }

  /** In every run, a window of length T sees at most chains * (T / recheckDelay + 1) flows. */
  lemma RateBound(cfg: Config, s: State, steps: seq<Step>, from: nat, to: nat)
    requires Initial(s) && cfg.recheckDelay > 0 && from <= to
    ensures var r := Run(cfg, s, steps);
      TotalIn(r.launches, from, to) <= |r.chains| * ((to - from) / cfg.recheckDelay + 1)
  {
    RunKeepsRate(cfg, s, steps);
    RateBoundAt(cfg, Run(cfg, s, steps), from, to);
  }

  lemma RateBoundAt(cfg: Config, s: State, from: nat, to: nat)
    requires RateInv(cfg, s) && cfg.recheckDelay > 0 && from <= to
    ensures TotalIn(s.launches, from, to) <= |s.chains| * ((to - from) / cfg.recheckDelay + 1)
  {
    forall i | 0 <= i < |s.launches|
      ensures Gapped(s.launches[i], cfg.recheckDelay)
    {
      assert ChainWaits(cfg, s, i);
    }
    TotalBound(s.launches, cfg.recheckDelay, from, to);
  }
}
