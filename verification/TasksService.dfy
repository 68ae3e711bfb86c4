/** TasksService and the tasks-queue processor: the code of one process, with the steps of all the
  * others running at each of its awaits. Each method is proved to be a run of the check loop. */
module TasksService {
  import opened Options
  import opened CheckLoop

  const DEFAULT_DELAY := 1000 * 60 * 5

  /** parseInt(RECHECK_DELAY_MS ?? '', 10) || DEFAULT_DELAY; None is NaN. */
  function RecheckDelay(parsed: Option<int>): (delay: int)
    ensures delay != 0
    ensures parsed.Some? && parsed.value != 0 ==> delay == parsed.value
    ensures parsed == None || parsed.value == 0 ==> delay == 300000
  {
    if parsed == None || parsed.value == 0 then DEFAULT_DELAY else parsed.value
  }

  /** How often a bootstrapper obliterates the tasks queue. */
  function Obliterations(isLive: Option<string>, doClean: Option<string>): nat {
    (if isLive != Some("true") then 1 else 0) + (if doClean == Some("true") then 1 else 0)
  }

  /** A live service with DO_CLEAN unset never obliterates; being not live and DO_CLEAN each add one. */
  lemma ObliterationsAre(isLive: Option<string>, doClean: Option<string>, me: nat)
    ensures isLive == Some("true") && doClean != Some("true") ==> Obliterations(isLive, doClean) == 0
    ensures isLive == Some("true") && doClean == Some("true") ==> Obliterations(isLive, doClean) == 1
    ensures isLive != Some("true") && doClean != Some("true") ==> Obliterations(isLive, doClean) == 1
    ensures isLive != Some("true") && doClean == Some("true") ==> Obliterations(isLive, doClean) == 2
    ensures BootstrapSteps(me, isLive, doClean, [[], [], [], [], []])
         == [Bootstrap] + seq(Obliterations(isLive, doClean) + 5, _ => Advance(me))
  {
  }

  /** The steps of other processes: none of them moves this chain's token. */
  predicate Others(me: nat, gaps: seq<seq<Step>>) {
    forall i | 0 <= i < |gaps| :: Advance(me) !in gaps[i]
  }

  /** A call's steps with the others' steps between them. */
  function CallSteps(me: nat, skipActive: bool, gaps: seq<seq<Step>>): seq<Step>
    requires |gaps| == 3
  {
    [Advance(me)] + gaps[0] + [Advance(me)] + gaps[1]
    + (if skipActive then [] else [Advance(me)] + gaps[2]) + [Advance(me)]
  }

  function BootstrapSteps(me: nat, isLive: Option<string>, doClean: Option<string>, gaps: seq<seq<Step>>): seq<Step>
    requires |gaps| == 5
  {
    [Bootstrap]
    + (if isLive != Some("true") then [Advance(me)] + gaps[0] else [])
    + (if doClean == Some("true") then [Advance(me)] + gaps[1] else [])
    + [Advance(me)] + CallSteps(me, false, gaps[2..])
  }

  lemma {:induction false} OthersKeepToken(cfg: Config, s: State, me: nat, steps: seq<Step>)
    requires me < |s.chains| && (s.chains[me].Call? || s.chains[me].Boot?) && Advance(me) !in steps
    ensures me < |Run(cfg, s, steps).chains| && Run(cfg, s, steps).chains[me] == s.chains[me]
    decreases |steps|
  {
    if steps != [] {
      assert steps[0] in steps;
      OthersKeepToken(cfg, Apply(cfg, s, steps[0]), me, steps[1..]);
    }
  }

  /** The states in which a call, with the others' steps between its own, reads the delayed and the
    * active count; the waiting count it reads at once. */
  function AtSecondRead(cfg: Config, s: State, me: nat, gaps: seq<seq<Step>>): State
    requires |gaps| == 3
  {
    Run(cfg, s, [Advance(me)] + gaps[0])
  }

  function AtThirdRead(cfg: Config, s: State, me: nat, gaps: seq<seq<Step>>): State
    requires |gaps| == 3
  {
    Run(cfg, s, [Advance(me)] + gaps[0] + [Advance(me)] + gaps[1])
  }

  class Tasks {
    const cfg: Config
    const isLive: Option<string>
    const doClean: Option<string>
    var s: State  // Redis, and where every other process stands

    constructor (isLive: Option<string>, doClean: Option<string>, recheckDelay: nat, s: State)
      ensures this.isLive == isLive && this.doClean == doClean && this.s == s
      ensures cfg == Config(recheckDelay, true, Obliterations(isLive, doClean))
    {
      this.isLive, this.doClean, this.s := isLive, doClean, s;
      cfg := Config(recheckDelay, true, Obliterations(isLive, doClean));
    }

    /** An await: the call has counted `sum` so far, and others run. `s0` and `done` are the
      * state the run started from and the steps taken since. */
    method Await(me: nat, token: Token, others: seq<Step>, ghost s0: State, ghost done: seq<Step>)
      requires me < |s.chains| && (token.Call? || token.Boot?) && Advance(me) !in others
      requires s == Run(cfg, s0, done) && Apply(cfg, s, Advance(me)) == SetToken(s, me, token)
      modifies this`s
      ensures s == Run(cfg, s0, done + [Advance(me)] + others)
      ensures me < |s.chains| && s.chains[me] == token
    {
      RunSnoc(cfg, s0, done, Advance(me));
      s := SetToken(s, me, token);
      OthersKeepToken(cfg, s, me, others);
      RunConcat(cfg, s0, done + [Advance(me)], others);
      s := Run(cfg, s, others);
    }

    method QueueCheckBalances(me: nat, delayJob: nat, skipActiveCheck: bool, gaps: seq<seq<Step>>)
      requires me < |s.chains| && s.chains[me] == Call(ReadWaiting, 0, delayJob, skipActiveCheck)
      requires |gaps| == 3 && Others(me, gaps)
      modifies this`s
      ensures s == Run(cfg, old(s), CallSteps(me, skipActiveCheck, gaps))
      ensures me < |s.chains|
      ensures s.chains[me] ==
        if || WaitingCount(old(s)) > 0 || DelayedCount(AtSecondRead(cfg, old(s), me, gaps)) > 0
           || (!skipActiveCheck && ActiveCount(AtThirdRead(cfg, old(s), me, gaps)) > 0)
        then Declined else NewJob(s.now, delayJob)
    {
      ghost var s0, a := s, [Advance(me)];
      var numJobsInQueue := 0;
      numJobsInQueue := numJobsInQueue + WaitingCount(s);
      Await(me, Call(ReadDelayed, numJobsInQueue, delayJob, skipActiveCheck), gaps[0], s0, []);
      ghost var d0 := [] + a + gaps[0];
      assert d0 == a + gaps[0];
      numJobsInQueue := numJobsInQueue + DelayedCount(s);
      var next := if skipActiveCheck then Decide else ReadActive;
      Await(me, Call(next, numJobsInQueue, delayJob, skipActiveCheck), gaps[1], s0, d0);
      ghost var d1 := d0 + a + gaps[1];
      if !skipActiveCheck {
        numJobsInQueue := numJobsInQueue + ActiveCount(s);
        Await(me, Call(Decide, numJobsInQueue, delayJob, skipActiveCheck), gaps[2], s0, d1);
        d1 := d1 + a + gaps[2];
      }
      CallStepsAre(me, skipActiveCheck, gaps);
      DecideOrAdd(me, numJobsInQueue, delayJob, skipActiveCheck, s0, d1);
    }

    /** The end of queueCheckBalances: give up, or add the job. */
    method DecideOrAdd(
        me: nat, numJobsInQueue: nat, delayJob: nat, skipActiveCheck: bool, ghost s0: State, ghost done: seq<Step>)
      requires me < |s.chains| && s.chains[me] == Call(Decide, numJobsInQueue, delayJob, skipActiveCheck)
      requires s == Run(cfg, s0, done)
      modifies this`s
      ensures s == Run(cfg, s0, done + [Advance(me)])
      ensures me < |s.chains|
      ensures if numJobsInQueue > 0 then s.chains[me] == Declined && s.declined == old(s).declined + 1
              else s.chains[me] == NewJob(s.now, delayJob) && s.seeded
    {
      RunSnoc(cfg, s0, done, Advance(me));
      if numJobsInQueue > 0 {
        s := SetToken(s, me, Declined).(declined := s.declined + 1);
      } else {
        s := SetToken(s, me, NewJob(s.now, delayJob)).(seeded := true);
      }
    }

    /** process(check-balances): launch a flow and start the requeue call, awaiting neither. */
    method Process(me: nat)
      requires me < |s.chains| == |s.launches| && s.chains[me].Picked?
      modifies this`s
      ensures s == Apply(cfg, old(s), Advance(me))
      ensures s.launches[me] == old(s.launches[me]) + [s.now]
      ensures s.chains[me] == Call(ReadWaiting, 0, cfg.recheckDelay, cfg.requeueSkipsActive)
    {
      if s.chains[me].listed {
        s := s.(running := s.running + 1);
      }
      s := s.(launches := s.launches[me := s.launches[me] + [s.now]]);
      s := SetToken(s, me, Call(ReadWaiting, 0, cfg.recheckDelay, cfg.requeueSkipsActive));
    }

    /** Bootstrap of TasksService; chain `me` is the one this process starts. */
    method OnApplicationBootstrap(isTheOne: bool, gaps: seq<seq<Step>>)
      requires cfg.obliterations == Obliterations(isLive, doClean)
      requires |gaps| == 5 && Others(|s.chains|, gaps)
      modifies this`s
      ensures !isTheOne ==> s == old(s)
      ensures isTheOne ==> s == Run(cfg, old(s), BootstrapSteps(|old(s).chains|, isLive, doClean, gaps))
      ensures isTheOne ==>
        |old(s).chains| < |s.chains| && (s.chains[|old(s).chains|] == Waiting || s.chains[|old(s).chains|] == Declined)
    {
      if !isTheOne {
        return;
      }
      ghost var s0 := s;
      var me := |s.chains|;
      s := Apply(cfg, s, Bootstrap);
      ghost var done := [Bootstrap];
      assert s == Run(cfg, s0, done) by { RunSnoc(cfg, s0, [], Bootstrap); assert [] + done == done; }
      if isLive != Some("true") {
        ObliterateTasks(me, gaps[0], s0, done);
        done := done + [Advance(me)] + gaps[0];
      }
      if doClean == Some("true") {
        ObliterateTasks(me, gaps[1], s0, done);
        done := done + [Advance(me)] + gaps[1];
      }
      RunSnoc(cfg, s0, done, Advance(me));
      s := SetToken(s, me, Call(ReadWaiting, 0, 0, false));
      done := done + [Advance(me)];
      QueueCheckBalances(me, 0, false, gaps[2..]);
      RunConcat(cfg, s0, done, CallSteps(me, false, gaps[2..]));
      BootstrapStepsAre(me, isLive, doClean, gaps);
    }

    /** obliterate({ force: true }), awaited. */
    method ObliterateTasks(me: nat, others: seq<Step>, ghost s0: State, ghost done: seq<Step>)
      requires me < |s.chains| && s.chains[me].Boot? && s.chains[me].obliterations > 0 && Advance(me) !in others
      requires s == Run(cfg, s0, done)
      modifies this`s
      ensures s == Run(cfg, s0, done + [Advance(me)] + others)
      ensures me < |s.chains| && s.chains[me] == Boot(old(s).chains[me].obliterations - 1)
    {
      RunSnoc(cfg, s0, done, Advance(me));
      s := Obliterate(s, me, s.chains[me].obliterations - 1);
      OthersKeepToken(cfg, s, me, others);
      RunConcat(cfg, s0, done + [Advance(me)], others);
      s := Run(cfg, s, others);
    }
  }

  lemma CallStepsAre(me: nat, skipActive: bool, gaps: seq<seq<Step>>)
    requires |gaps| == 3
    ensures var a := [Advance(me)];
      CallSteps(me, skipActive, gaps)
      == (if skipActive then [] + a + gaps[0] + a + gaps[1] else [] + a + gaps[0] + a + gaps[1] + a + gaps[2]) + a
  {
  }

  lemma BootstrapStepsAre(me: nat, isLive: Option<string>, doClean: Option<string>, gaps: seq<seq<Step>>)
    requires |gaps| == 5
    ensures var a, live, clean := [Advance(me)], isLive == Some("true"), doClean == Some("true");
      var wiped := if live then [Bootstrap] else [Bootstrap] + a + gaps[0];
      BootstrapSteps(me, isLive, doClean, gaps)
      == (if clean then wiped + a + gaps[1] else wiped) + a + CallSteps(me, false, gaps[2..])
  {
  }

  lemma RunOne(cfg: Config, s: State, step: Step)
    ensures Run(cfg, s, [step]) == Apply(cfg, s, step)
  {
    assert [step][1..] == [];
  }

  /** A due job that is promoted between the two reads of a requeue call is in neither count: the
    * call adds a second job beside it. */
  lemma PromotedJobIsMissed(cfg: Config, s: State, me: nat, i: nat, delay: nat)
    requires me < |s.chains| && i < |s.chains| && s.chains[me] == Call(ReadWaiting, 0, delay, true)
    requires s.chains[i].Delayed? && s.chains[i].readyAt <= s.now
    requires forall j | 0 <= j < |s.chains| && j != i :: !s.chains[j].Waiting? && !s.chains[j].Delayed?
    ensures var r := Run(cfg, s, CallSteps(me, true, [[Advance(i)], [], []]));
      && |r.chains| == |s.chains| && r.chains[i] == Waiting && r.chains[me] == NewJob(s.now, delay)
      && WaitingCount(r) + DelayedCount(r) == 2
  {
    var a, b := Advance(me), Advance(i);
    assert CallSteps(me, true, [[b], [], []]) == [a, b, a] + [a];
    RunThree(cfg, s, a, b, a);
    RunSnoc(cfg, s, [a, b, a], a);
    NoneWait(s, WaitingJobs);
    var s1 := Apply(cfg, s, a);
    assert s1 == SetToken(s, me, Call(ReadDelayed, 0, delay, true));
    var s2 := Apply(cfg, s1, b);
    assert s2 == SetToken(s1, i, Waiting);
    NoneWait(s2, DelayedJobs);
    var s3 := Apply(cfg, s2, a);
    assert s3 == SetToken(s2, me, Call(Decide, 0, delay, true));
    var r := Apply(cfg, s3, a);
    assert r.chains == s.chains[i := Waiting][me := NewJob(s.now, delay)];
    CountOfTwo(s, me, i, NewJob(s.now, delay));
  }

  lemma NoneWait(s: State, m: Measure)
    requires m == WaitingJobs || m == DelayedJobs
    requires forall j | 0 <= j < |s.chains| :: Weight(m, s.chains[j]) == 0
    ensures Sum(m, s.chains) == 0
  {
    if Sum(m, s.chains) > 0 { var j := SumPositive(m, s.chains); }
  }

  lemma CountOfTwo(s: State, me: nat, i: nat, t: Token)
    requires me < |s.chains| && i < |s.chains| && me != i && (t.Waiting? || t.Delayed?) && s.chains[i].Delayed?
    requires forall j | 0 <= j < |s.chains| && j != i :: !s.chains[j].Waiting? && !s.chains[j].Delayed?
    ensures var ts := s.chains[i := Waiting][me := t]; Sum(WaitingJobs, ts) + Sum(DelayedJobs, ts) == 2
  {
    var none := s.(chains := s.chains[i := Declined]);
    NoneWait(none, WaitingJobs);
    NoneWait(none, DelayedJobs);
    var one := none.chains[i := Waiting];
    assert one == s.chains[i := Waiting];
    SumUpdate(WaitingJobs, none.chains, i, Waiting);
    SumUpdate(DelayedJobs, none.chains, i, Waiting);
    SumUpdate(WaitingJobs, one, me, t);
    SumUpdate(DelayedJobs, one, me, t);
  }
}
