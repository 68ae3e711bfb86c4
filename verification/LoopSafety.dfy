/** What every interleaving of the check loop keeps: the loop never goes out, and no chain is
  * ever duplicated or lost without being counted. */
module LoopSafety {
  import opened CheckLoop

  // ----- The loop never goes out

  /** A token that will lead to another check: an unprocessed job, or a requeue call that has
    * counted nothing so far. */
  predicate Carries(t: Token) {
    Unprocessed(t) || (t.Call? && t.skipActive && !t.phase.ReadActive? && t.sum == 0)
  }

  ghost predicate Alive(s: State) {
    exists i :: 0 <= i < |s.chains| && Carries(s.chains[i])
  }

  /** A bootstrapper that will still seed the queue, or a call that has counted nothing so far. */
  predicate WillSeed(t: Token) {
    t.Boot? || (t.Call? && t.sum == 0)
  }

  ghost predicate SeedPending(s: State) {
    exists i :: 0 <= i < |s.chains| && WillSeed(s.chains[i])
  }

  /** Once a job has been added since the last obliterate there is an unprocessed job or a
    * requeue call with partial sum 0; until then a bootstrapper holds the token. */
  ghost predicate NeverOut(s: State) {
    && (s.seeded ==> Alive(s))
    && (!s.seeded && s.chains != [] ==> SeedPending(s))
  }

  /** Nothing has been added since the last obliterate, so Redis holds no job at all. */
  ghost predicate Quiet(s: State) {
    && s.running == 0
    && forall i | 0 <= i < |s.chains| ::
         !s.chains[i].Waiting? && !s.chains[i].Delayed? && (s.chains[i].Picked? ==> !s.chains[i].listed)
  }

  ghost predicate LoopInv(s: State) {
    NeverOut(s) && (!s.seeded ==> Quiet(s))
  }

  lemma QuietCounts(s: State)
    requires Quiet(s)
    ensures WaitingCount(s) == DelayedCount(s) == ActiveCount(s) == 0
  {
    if WaitingCount(s) > 0 { var i := SumPositive(WaitingJobs, s.chains); }
    if DelayedCount(s) > 0 { var i := SumPositive(DelayedJobs, s.chains); }
    if ActiveCount(s) > 0 { var i := SumPositive(ListedJobs, s.chains); }
  }

  /** A count that reads non-zero proves that an unprocessed job exists. */
  lemma JobCounted(s: State)
    requires WaitingCount(s) > 0 || DelayedCount(s) > 0
    ensures exists j :: 0 <= j < |s.chains| && Unprocessed(s.chains[j])
  {
    if WaitingCount(s) > 0 {
      var j := SumPositive(WaitingJobs, s.chains);
    } else {
      var j := SumPositive(DelayedJobs, s.chains);
    }
  }

  lemma CallKeepsAlive(s: State, i: nat)
    requires i < |s.chains| && s.chains[i].Call? && s.seeded && Alive(s)
    ensures Alive(AdvanceCall(s, i, s.chains[i]))
  {
    var s' := AdvanceCall(s, i, s.chains[i]);
    var j :| 0 <= j < |s.chains| && Carries(s.chains[j]);
    if j != i {
      assert Carries(s'.chains[j]);
    } else if s.chains[i].phase.Decide? || Carries(s'.chains[i]) {
      assert Carries(s'.chains[i]);
    } else {
      JobCounted(s);
      var u :| 0 <= u < |s.chains| && Unprocessed(s.chains[u]);
      assert Carries(s'.chains[u]);
    }
  }

  lemma CallKeepsQuiet(s: State, i: nat)
    requires i < |s.chains| && s.chains[i].Call? && !s.seeded && Quiet(s) && SeedPending(s)
    ensures LoopInv(AdvanceCall(s, i, s.chains[i]))
  {
    QuietCounts(s);
    var s' := AdvanceCall(s, i, s.chains[i]);
    var j :| 0 <= j < |s.chains| && WillSeed(s.chains[j]);
    if s'.seeded {
      assert Carries(s'.chains[i]);
    } else {
      assert WillSeed(s'.chains[j]);
    }
  }

  lemma AdvanceKeepsInv(cfg: Config, s: State, i: nat)
    requires cfg.requeueSkipsActive && LoopInv(s) && i < |s.chains|
    ensures LoopInv(AdvanceChain(cfg, s, i))
  {
    var s' := AdvanceChain(cfg, s, i);
    if s.chains[i].Call? {
      if s.seeded { CallKeepsAlive(s, i); } else { CallKeepsQuiet(s, i); }
    } else if s.chains[i].Boot? && (s.chains[i].obliterations > 0 || !s.seeded) {
      assert WillSeed(s'.chains[i]);
    } else if s.seeded {
      var j :| 0 <= j < |s.chains| && Carries(s.chains[j]);
      assert Carries(s'.chains[j]);
    } else {
      var j :| 0 <= j < |s.chains| && WillSeed(s.chains[j]);
      assert WillSeed(s'.chains[j]);
    }
  }

  lemma StepKeepsInv(cfg: Config, s: State, step: Step)
    requires cfg.requeueSkipsActive && LoopInv(s)
    ensures LoopInv(Apply(cfg, s, step))
  {
    var s' := Apply(cfg, s, step);
    if step.Advance? {
      if step.chain < |s.chains| { AdvanceKeepsInv(cfg, s, step.chain); }
    } else if s.seeded {
      var j :| 0 <= j < |s.chains| && Carries(s.chains[j]);
      assert Carries(s'.chains[j]);
    } else if s.chains != [] {
      var j :| 0 <= j < |s.chains| && WillSeed(s.chains[j]);
      assert WillSeed(s'.chains[j]);
    } else if step.Bootstrap? {
      assert WillSeed(s'.chains[0]);
    }
  }

  lemma InitialInv(s: State)
    requires Initial(s)
    ensures LoopInv(s)
  {
    if s.chains != [] {
      assert Carries(s.chains[0]);
    }
  }

  lemma {:induction false} RunKeepsInv(cfg: Config, s: State, steps: seq<Step>)
    requires cfg.requeueSkipsActive && LoopInv(s)
    ensures LoopInv(Run(cfg, s, steps))
    decreases |steps|
  {
    if steps != [] {
      StepKeepsInv(cfg, s, steps[0]);
      RunKeepsInv(cfg, Apply(cfg, s, steps[0]), steps[1..]);
    }
  }

  /** No live token at all: nothing is left that could ever add a job. */
  ghost predicate Dead(s: State) {
    s.seeded && s.running == 0 && forall i | 0 <= i < |s.chains| :: !Live(s.chains[i])
  }

  const LEFTOVER_JOB := State(0, [Waiting], 0, true, [[]], 0, 0, 0)

  /** If requeue calls counted active jobs, a single chain would see the job that is still
    * running, decline, and end. */
  lemma CountingActiveJobsKillsTheLoop(cfg: Config) returns (steps: seq<Step>)
    requires !cfg.requeueSkipsActive
    ensures Initial(LEFTOVER_JOB) && Dead(Run(cfg, LEFTOVER_JOB, steps))
  {
    assert LEFTOVER_JOB.launches == seq(|LEFTOVER_JOB.chains|, _ => []);
    var call := Call(ReadWaiting, 0, cfg.recheckDelay, false);
    SumSingle(WaitingJobs, call);
    SumSingle(DelayedJobs, call.(phase := ReadDelayed));
    SumSingle(ListedJobs, call.(phase := ReadActive));
    var a := Advance(0);
    steps := [a, a, a, a, a, a, Complete];
    var s3 := Run(cfg, LEFTOVER_JOB, [a, a, a]);
    RunThree(cfg, LEFTOVER_JOB, a, a, a);
    assert Apply(cfg, Apply(cfg, LEFTOVER_JOB, a), a).chains == [call];
    assert s3.chains == [call.(phase := ReadDelayed)] && s3.running == 1;
    var s6 := Run(cfg, s3, [a, a, a]);
    RunThree(cfg, s3, a, a, a);
    assert Apply(cfg, s3, a).chains == [call.(phase := ReadActive)];
    assert s6.chains == [Declined] && s6.running == 1 && s6.seeded;
    RunConcat(cfg, s3, [a, a, a], [Complete]);
    RunConcat(cfg, LEFTOVER_JOB, [a, a, a], [a, a, a, Complete]);
    assert steps == [a, a, a] + [a, a, a, Complete] && [a, a, a, Complete] == [a, a, a] + [Complete];
  }

  /** A dead loop stays dead until somebody bootstraps again. */
  lemma {:induction false} DeadStaysDead(cfg: Config, s: State, steps: seq<Step>)
    requires Dead(s) && Bootstrap !in steps
    ensures Dead(Run(cfg, s, steps)) && Run(cfg, s, steps).launches == s.launches
    decreases |steps|
  {
    if steps != [] {
      assert steps[0] in steps;
      DeadStaysDead(cfg, Apply(cfg, s, steps[0]), steps[1..]);
    }
  }

  ghost predicate StaysAlive(cfg: Config, s: State, steps: seq<Step>) {
    NeverOut(Run(cfg, s, steps))
  }

  /** The loop never goes out, whatever the workers, the leftovers and the interleaving, exactly
    * when requeue calls leave the active count out, as process() asks them to. */
  lemma NeverGoesOut(cfg: Config)
    ensures (forall s, steps :: Initial(s) ==> StaysAlive(cfg, s, steps)) <==> cfg.requeueSkipsActive
  {
    if cfg.requeueSkipsActive {
      forall s, steps | Initial(s)
        ensures StaysAlive(cfg, s, steps)
      {
        InitialInv(s);
        RunKeepsInv(cfg, s, steps);
      }
    } else {
      var steps := CountingActiveJobsKillsTheLoop(cfg);
      assert forall t :: Carries(t) ==> Live(t);
      assert !StaysAlive(cfg, LEFTOVER_JOB, steps);
    }
  }

  // ----- Conservation of chains

  ghost predicate Conserved(s: State, leftover: nat) {
    Sum(LiveTokens, s.chains) + s.declined + s.obliterated == leftover + s.bootstraps
  }

  lemma WipeLive(ts: seq<Token>, i: nat, k: nat)
    requires i < |ts| && ts[i].Boot?
    ensures Sum(LiveTokens, Wipe(ts)[i := Boot(k)]) + Sum(WaitingJobs, ts) + Sum(DelayedJobs, ts) == Sum(LiveTokens, ts)
  {
    SumWipe(ts);
    assert Wipe(ts)[i] == ts[i];
    SumUpdate(LiveTokens, Wipe(ts), i, Boot(k));
  }

  lemma ObliterateConserves(s: State, i: nat, k: nat, leftover: nat)
    requires i < |s.chains| && s.chains[i].Boot? && Conserved(s, leftover)
    ensures Conserved(Obliterate(s, i, k), leftover)
  {
    WipeLive(s.chains, i, k);
  }

  lemma AdvanceConserves(cfg: Config, s: State, i: nat, leftover: nat)
    requires i < |s.chains| && Conserved(s, leftover)
    ensures Conserved(AdvanceChain(cfg, s, i), leftover)
  {
    if s.chains[i].Boot? && s.chains[i].obliterations > 0 {
      ObliterateConserves(s, i, s.chains[i].obliterations - 1, leftover);
    } else {
      var s' := AdvanceChain(cfg, s, i);
      assert s'.chains == s.chains[i := s'.chains[i]];
      SumUpdate(LiveTokens, s.chains, i, s'.chains[i]);
    }
  }

  lemma StepConserves(cfg: Config, s: State, step: Step, leftover: nat)
    requires Conserved(s, leftover)
    ensures Conserved(Apply(cfg, s, step), leftover)
  {
    if step.Bootstrap? {
      SumAppend(LiveTokens, s.chains, Boot(cfg.obliterations));
    } else if step.Advance? && step.chain < |s.chains| {
      AdvanceConserves(cfg, s, step.chain, leftover);
    }
  }

  lemma InitialLive(ts: seq<Token>)
    requires forall i | 0 <= i < |ts| :: ts[i].Waiting? || ts[i].Delayed?
    ensures Sum(LiveTokens, ts) == |ts|
  {
    if ts != [] {
      InitialLive(ts[..|ts| - 1]);
    }
  }

  lemma {:induction false} RunConserves(cfg: Config, s: State, steps: seq<Step>, leftover: nat)
    requires Conserved(s, leftover)
    ensures Conserved(Run(cfg, s, steps), leftover)
    decreases |steps|
  {
    if steps != [] {
      StepConserves(cfg, s, steps[0], leftover);
      RunConserves(cfg, Apply(cfg, s, steps[0]), steps[1..], leftover);
    }
  }

  lemma JobsAreLive(ts: seq<Token>)
    ensures Sum(WaitingJobs, ts) + Sum(DelayedJobs, ts) + Sum(ListedJobs, ts) <= Sum(LiveTokens, ts)
  {
    if ts != [] {
      JobsAreLive(ts[..|ts| - 1]);
    }
  }

  /** In every reachable state: live tokens = jobs left over + bootstraps - calls that declined
    * - jobs obliterated. So the unprocessed jobs in Redis never outnumber the seeds. */
  lemma {:induction false} ChainsAreConserved(cfg: Config, s: State, steps: seq<Step>)
    requires Initial(s)
    ensures var r := Run(cfg, s, steps);
      && Sum(LiveTokens, r.chains) == |s.chains| + r.bootstraps - r.declined - r.obliterated
      && WaitingCount(r) + DelayedCount(r) <= |s.chains| + r.bootstraps
      && r.declined == Sum(DeclinedCalls, r.chains) && r.obliterated == Sum(ObliteratedJobs, r.chains)
  {
    InitialLive(s.chains);
    NoneEnded(s.chains);
    EndsAreCounted(cfg, s, steps);
    RunConserves(cfg, s, steps, |s.chains|);
    JobsAreLive(Run(cfg, s, steps).chains);
  }

  /** The counts of calls that declined and of jobs obliterated are those of the chains so ended. */
  ghost predicate EndsCounted(s: State) {
    Sum(DeclinedCalls, s.chains) == s.declined && Sum(ObliteratedJobs, s.chains) == s.obliterated
  }

  lemma ObliterateCounts(s: State, i: nat, k: nat)
    requires i < |s.chains| && s.chains[i].Boot? && EndsCounted(s)
    ensures EndsCounted(Obliterate(s, i, k))
  {
    WipeEnds(s.chains, i, k);
  }

  lemma WipeEnds(ts: seq<Token>, i: nat, k: nat)
    requires i < |ts| && ts[i].Boot?
    ensures Sum(DeclinedCalls, Wipe(ts)[i := Boot(k)]) == Sum(DeclinedCalls, ts)
    ensures Sum(ObliteratedJobs, Wipe(ts)[i := Boot(k)])
         == Sum(ObliteratedJobs, ts) + Sum(WaitingJobs, ts) + Sum(DelayedJobs, ts)
  {
    SumWipe(ts);
    assert Wipe(ts)[i] == ts[i];
    SumUpdate(DeclinedCalls, Wipe(ts), i, Boot(k));
    SumUpdate(ObliteratedJobs, Wipe(ts), i, Boot(k));
  }

  lemma AdvanceCounts(cfg: Config, s: State, i: nat)
    requires i < |s.chains| && EndsCounted(s)
    ensures EndsCounted(AdvanceChain(cfg, s, i))
  {
    if s.chains[i].Boot? && s.chains[i].obliterations > 0 {
      ObliterateCounts(s, i, s.chains[i].obliterations - 1);
    } else {
      var s' := AdvanceChain(cfg, s, i);
      assert s'.chains == s.chains[i := s'.chains[i]];
      SumUpdate(DeclinedCalls, s.chains, i, s'.chains[i]);
      SumUpdate(ObliteratedJobs, s.chains, i, s'.chains[i]);
    }
  }

  lemma {:induction false} EndsAreCounted(cfg: Config, s: State, steps: seq<Step>)
    requires EndsCounted(s)
    ensures EndsCounted(Run(cfg, s, steps))
    decreases |steps|
  {
    if steps != [] {
      if steps[0].Bootstrap? {
        SumAppend(DeclinedCalls, s.chains, Boot(cfg.obliterations));
        SumAppend(ObliteratedJobs, s.chains, Boot(cfg.obliterations));
      } else if steps[0].Advance? && steps[0].chain < |s.chains| {
        AdvanceCounts(cfg, s, steps[0].chain);
      }
      EndsAreCounted(cfg, Apply(cfg, s, steps[0]), steps[1..]);
    }
  }

  lemma NoneEnded(ts: seq<Token>)
    requires forall i | 0 <= i < |ts| :: ts[i].Waiting? || ts[i].Delayed?
    ensures Sum(DeclinedCalls, ts) == Sum(ObliteratedJobs, ts) == 0
  {
    if ts != [] {
      NoneEnded(ts[..|ts| - 1]);
    }
  }

  /** Each bootstrap adds one chain and nothing else does. */
  lemma {:induction false} ChainsAreBootstraps(cfg: Config, s: State, steps: seq<Step>)
    requires |s.launches| == |s.chains|
    ensures var r := Run(cfg, s, steps);
      && |r.chains| + s.bootstraps == |s.chains| + r.bootstraps
      && |r.launches| == |r.chains|
    decreases |steps|
  {
    if steps != [] {
      ChainsAreBootstraps(cfg, Apply(cfg, s, steps[0]), steps[1..]);
    }
  }

  // ----- One seed

  /** Chain i alone has not ended, and no call of it has counted anything: what Redis holds are its
    * own job and jobs of it that are still running, and these only a requeue call may meet. */
  ghost predicate SoleToken(s: State, i: nat) {
    && i < |s.chains| && Live(s.chains[i])
    && (forall j | 0 <= j < |s.chains| && j != i :: !Live(s.chains[j]))
    && (s.chains[i] == Boot(0) ==> s.running == 0)
    && (s.chains[i].Call? ==> s.chains[i].sum == 0)
    && (s.chains[i].Call? ==> if s.chains[i].skipActive then !s.chains[i].phase.ReadActive? else s.running == 0)
  }

  /** Chains that have ended count for nothing. */
  lemma {:induction false} SumOfOne(m: Measure, ts: seq<Token>, i: nat)
    requires m != DeclinedCalls && m != ObliteratedJobs
    requires forall j | 0 <= j < |ts| && j != i :: !Live(ts[j])
    ensures Sum(m, ts) == if i < |ts| then Weight(m, ts[i]) else 0
  {
    if ts != [] {
      SumOfOne(m, ts[..|ts| - 1], i);
    }
  }

  lemma SoleStep(cfg: Config, s: State, i: nat, step: Step)
    requires cfg.requeueSkipsActive && SoleToken(s, i) && !step.Bootstrap?
    ensures SoleToken(Apply(cfg, s, step), i)
    ensures Apply(cfg, s, step).declined == s.declined
  {
    SumOfOne(WaitingJobs, s.chains, i);
    SumOfOne(DelayedJobs, s.chains, i);
    SumOfOne(ListedJobs, s.chains, i);
  }

  /** Once one token is left there is exactly one forever, until somebody bootstraps again, and no
    * call declines, whatever chains came before. */
  lemma {:induction false} OneSeedOneToken(cfg: Config, s: State, i: nat, steps: seq<Step>)
    requires cfg.requeueSkipsActive && SoleToken(s, i) && Bootstrap !in steps
    ensures var r := Run(cfg, s, steps);
      && SoleToken(r, i) && Sum(LiveTokens, r.chains) == 1 && r.declined == s.declined
    decreases |steps|
  {
    SumOfOne(LiveTokens, s.chains, i);
    if steps != [] {
      assert steps[0] in steps;
      SoleStep(cfg, s, i, steps[0]);
      OneSeedOneToken(cfg, Apply(cfg, s, steps[0]), i, steps[1..]);
    }
  }

  /** A job that an obliterate removes. */
  predicate Wiped(t: Token) { t.Waiting? || t.Delayed? }

  /** The step that a bootstrapper's chain i takes in its turn leaves one token exactly when all
    * others have ended or, for an obliterate, are jobs that it removes, and, for a seed, no job
    * is running. Jobs in a worker's hands and calls in flight survive an obliterate. */
  lemma SeedIsSoleIff(cfg: Config, s: State, i: nat)
    requires i < |s.chains| && s.chains[i].Boot?
    ensures SoleToken(AdvanceChain(cfg, s, i), i)
      <==> if s.chains[i].obliterations > 0
           then forall j | 0 <= j < |s.chains| && j != i :: !Live(s.chains[j]) || Wiped(s.chains[j])
           else s.running == 0 && forall j | 0 <= j < |s.chains| && j != i :: !Live(s.chains[j])
  {
    var s' := AdvanceChain(cfg, s, i);
    if s.chains[i].obliterations > 0 {
      assert forall j | 0 <= j < |s.chains| && j != i :: s'.chains[j] == WipeToken(s.chains[j]);
      assert forall t :: !Live(WipeToken(t)) <==> !Live(t) || Wiped(t);
      if forall j | 0 <= j < |s.chains| && j != i :: !Live(s'.chains[j]) {
        assert SoleToken(s', i);
      }
    } else {
      assert forall j | 0 <= j < |s.chains| && j != i :: s'.chains[j] == s.chains[j];
    }
  }

  // ----- The first leader after a start

  lemma {:induction false} NothingHappens(cfg: Config, s: State, steps: seq<Step>)
    requires s.chains == [] && s.running == 0 && Bootstrap !in steps
    ensures Run(cfg, s, steps).chains == [] && Run(cfg, s, steps).running == 0
    decreases |steps|
  {
    if steps != [] {
      assert steps[0] in steps;
      NothingHappens(cfg, Apply(cfg, s, steps[0]), steps[1..]);
    }
  }

  lemma {:induction false} BootWaits(cfg: Config, s: State, k: nat, steps: seq<Step>)
    requires s.chains == [Boot(k)] && s.running == 0 && Bootstrap !in steps && Advance(0) !in steps
    ensures Run(cfg, s, steps).chains == [Boot(k)] && Run(cfg, s, steps).running == 0
    decreases |steps|
  {
    if steps != [] {
      assert steps[0] in steps;
      BootWaits(cfg, Apply(cfg, s, steps[0]), k, steps[1..]);
    }
  }

  /** A worker takes the first job that was left over. */
  lemma FirstIsPicked(cfg: Config, s: State) returns (steps: seq<Step>)
    requires s.chains != [] && (s.chains[0].Waiting? || s.chains[0].Delayed?)
    ensures Bootstrap !in steps
    ensures Run(cfg, s, steps).chains == s.chains[0 := Picked(true)]
  {
    var tick := Tick(if s.chains[0].Delayed? then s.chains[0].readyAt else 0);
    var s1 := Apply(cfg, s, tick);
    var s2 := Apply(cfg, s1, Advance(0));
    if s.chains[0].Delayed? {
      steps := [tick, Advance(0), Advance(0)];
      RunThree(cfg, s, tick, Advance(0), Advance(0));
      assert s2.chains == s.chains[0 := Waiting];
    } else {
      steps := [tick, Advance(0)];
      assert steps[1..] == [Advance(0)];
      assert Run(cfg, s1, [Advance(0)]) == s2;
    }
  }

  /** The run in which the first leader bootstraps after `pre` and takes its first step after `mid`. */
  function FirstSeed(s: State, pre: seq<Step>, mid: seq<Step>): seq<Step> {
    pre + [Bootstrap] + mid + [Advance(|s.chains|)]
  }

  lemma FirstSeedRun(cfg: Config, s: State, pre: seq<Step>, mid: seq<Step>)
    ensures Run(cfg, s, FirstSeed(s, pre, mid))
         == Apply(cfg, Run(cfg, Apply(cfg, Run(cfg, s, pre), Bootstrap), mid), Advance(|s.chains|))
  {
    RunSnoc(cfg, s, pre + [Bootstrap] + mid, Advance(|s.chains|));
    RunConcat(cfg, s, pre + [Bootstrap], mid);
    RunSnoc(cfg, s, pre, Bootstrap);
  }

  ghost predicate FirstSeedIsSole(cfg: Config, s: State, pre: seq<Step>, mid: seq<Step>) {
    Bootstrap !in pre && Bootstrap !in mid && Advance(|s.chains|) !in mid
    ==> SoleToken(Run(cfg, s, FirstSeed(s, pre, mid)), |s.chains|)
  }

  lemma LoneBootIsSole(cfg: Config, s: State, k: nat)
    requires s.chains == [Boot(k)] && s.running == 0
    ensures SoleToken(Apply(cfg, s, Advance(0)), 0)
  {
    SeedIsSoleIff(cfg, s, 0);
  }

  lemma SeedOfEmptyIsSole(cfg: Config, s: State, pre: seq<Step>, mid: seq<Step>)
    requires s.chains == [] && s.running == 0
    ensures FirstSeedIsSole(cfg, s, pre, mid)
  {
    if Bootstrap !in pre && Bootstrap !in mid && Advance(0) !in mid {
      FirstSeedRun(cfg, s, pre, mid);
      NothingHappens(cfg, s, pre);
      var s1 := Apply(cfg, Run(cfg, s, pre), Bootstrap);
      BootWaits(cfg, s1, cfg.obliterations, mid);
      LoneBootIsSole(cfg, Run(cfg, s1, mid), cfg.obliterations);
    }
  }

  /** A job that a worker has picked survives the obliterate. */
  lemma PickedSurvives(cfg: Config, s: State) returns (pre: seq<Step>)
    requires s.chains != [] && (s.chains[0].Waiting? || s.chains[0].Delayed?)
    ensures !FirstSeedIsSole(cfg, s, pre, [])
  {
    pre := FirstIsPicked(cfg, s);
    FirstSeedRun(cfg, s, pre, []);
    SeedBesidePicked(cfg, s, Run(cfg, s, pre));
  }

  lemma SeedBesidePicked(cfg: Config, s: State, s0: State)
    requires s.chains != [] && s0.chains == s.chains[0 := Picked(true)]
    ensures !SoleToken(Apply(cfg, Run(cfg, Apply(cfg, s0, Bootstrap), []), Advance(|s.chains|)), |s.chains|)
  {
    var n, s1 := |s.chains|, Apply(cfg, s0, Bootstrap);
    assert s1.chains[0] == Picked(true) && s1.chains[n] == Boot(cfg.obliterations);
    assert Run(cfg, s1, []) == s1;
    PickedIsNotAlone(cfg, s1, n);
  }

  lemma PickedIsNotAlone(cfg: Config, s: State, i: nat)
    requires 0 < i < |s.chains| && s.chains[0].Picked? && s.chains[i].Boot?
    ensures !SoleToken(Apply(cfg, s, Advance(i)), i)
  {
    SeedIsSoleIff(cfg, s, i);
    assert Live(s.chains[0]) && !Wiped(s.chains[0]);
  }

  /** In all runs the first leader's first step leaves its token alone exactly when nothing was left
    * over at the start, however often it obliterates: a worker may have picked a job before. */
  lemma FirstSeedIsSoleIff(cfg: Config, s: State)
    requires Initial(s)
    ensures (forall pre, mid :: FirstSeedIsSole(cfg, s, pre, mid)) <==> s.chains == []
  {
    if s.chains == [] {
      forall pre, mid
        ensures FirstSeedIsSole(cfg, s, pre, mid)
      {
        SeedOfEmptyIsSole(cfg, s, pre, mid);
      }
    } else {
      var pre := PickedSurvives(cfg, s);
    }
  }
}
