/** The queue as its author may have pictured it: queueCheckBalances in one indivisible step.
  * The interleaved machine refines this picture while only one token exists, and not beyond. */
module AtomicQueue {
  import opened CheckLoop
  import opened LoopSafety
  import opened Sweeps

  datatype Queue = Queue(waiting: nat, delayed: nat, active: nat)

  datatype Op =
    | Call(delay: nat, skipActive: bool)
    | Promote
    | Pick
    | Complete
    | Obliterate

  function Seen(q: Queue, skipActive: bool): nat {
    q.waiting + q.delayed + if skipActive then 0 else q.active
  }

  function Do(q: Queue, op: Op): Queue {
    match op
    case Call(delay, skipActive) =>
      if Seen(q, skipActive) > 0 then q
      else if delay == 0 then q.(waiting := q.waiting + 1)
      else q.(delayed := q.delayed + 1)
    case Promote => if q.delayed > 0 then q.(delayed := q.delayed - 1, waiting := q.waiting + 1) else q
    case Pick => if q.waiting > 0 then q.(waiting := q.waiting - 1, active := q.active + 1) else q
    case Complete => if q.active > 0 then q.(active := q.active - 1) else q
    case Obliterate => Queue(0, 0, 0)
  }

  function DoAll(q: Queue, ops: seq<Op>): Queue
    decreases |ops|
  {
    if ops == [] then q else DoAll(Do(q, ops[0]), ops[1..])
  }

  /** Were the calls indivisible, no number of callers could put a second job into the queue. */
  lemma {:induction false} AtMostOneJob(q: Queue, ops: seq<Op>)
    requires q.waiting + q.delayed <= 1
    ensures DoAll(q, ops).waiting + DoAll(q, ops).delayed <= 1
    decreases |ops|
  {
    if ops != [] {
      AtMostOneJob(Do(q, ops[0]), ops[1..]);
    }
  }

  /** What Redis holds in a state of the interleaved machine. */
  function View(s: State): Queue {
    Queue(WaitingCount(s), DelayedCount(s), ActiveCount(s))
  }

  lemma ViewUpdate(s: State, i: nat, t: Token)
    requires i < |s.chains|
    ensures WaitingCount(SetToken(s, i, t)) + Weight(WaitingJobs, s.chains[i])
         == WaitingCount(s) + Weight(WaitingJobs, t)
    ensures DelayedCount(SetToken(s, i, t)) + Weight(DelayedJobs, s.chains[i])
         == DelayedCount(s) + Weight(DelayedJobs, t)
    ensures ActiveCount(SetToken(s, i, t)) + Weight(ListedJobs, s.chains[i])
         == ActiveCount(s) + Weight(ListedJobs, t)
  {
    SumUpdate(WaitingJobs, s.chains, i, t);
    SumUpdate(DelayedJobs, s.chains, i, t);
    SumUpdate(ListedJobs, s.chains, i, t);
  }

  /** The operation of the atomic queue that a step amounts to, if any. */
  function Meaning(s: State, step: Step): seq<Op> {
    match step
    case Tick(_) => []
    case Bootstrap => []
    case Complete => if s.running > 0 then [Op.Complete] else []
    case Advance(i) =>
      if i >= |s.chains| then []
      else match s.chains[i]
        case Boot(k) => if k > 0 then [Op.Obliterate] else []
        case Call(Decide, _, delay, skipActive) => [Op.Call(delay, skipActive)]
        case Delayed(r) => if r <= s.now then [Promote] else []
        case Waiting => [Pick]
        case _ => []
  }

  lemma ViewOfOne(s: State, i: nat)
    requires SoleToken(s, i)
    ensures View(s) == Queue(
        Weight(WaitingJobs, s.chains[i]), Weight(DelayedJobs, s.chains[i]), Weight(ListedJobs, s.chains[i]) + s.running)
  {
    SumOfOne(WaitingJobs, s.chains, i);
    SumOfOne(DelayedJobs, s.chains, i);
    SumOfOne(ListedJobs, s.chains, i);
  }

  lemma StepRefines(cfg: Config, s: State, i: nat, step: Step)
    requires cfg.requeueSkipsActive && SoleToken(s, i) && !step.Bootstrap?
    ensures View(Apply(cfg, s, step)) == DoAll(View(s), Meaning(s, step))
  {
    SoleStep(cfg, s, i, step);
    ViewOfOne(s, i);
    ViewOfOne(Apply(cfg, s, step), i);
    var ops := Meaning(s, step);
    if ops != [] {
      assert DoAll(View(s), ops) == DoAll(Do(View(s), ops[0]), ops[1..]);
      assert ops[1..] == [];
    }
  }

  function MeaningOfRun(cfg: Config, s: State, steps: seq<Step>): seq<Op>
    decreases |steps|
  {
    if steps == [] then [] else Meaning(s, steps[0]) + MeaningOfRun(cfg, Apply(cfg, s, steps[0]), steps[1..])
  }

  lemma DoAllConcat(q: Queue, xs: seq<Op>, ys: seq<Op>)
    ensures DoAll(q, xs + ys) == DoAll(DoAll(q, xs), ys)
    decreases |xs|
  {
    if xs == [] {
      assert xs + ys == ys;
    } else {
      assert (xs + ys)[1..] == xs[1..] + ys;
      DoAllConcat(Do(q, xs[0]), xs[1..], ys);
    }
  }

  /** While one token is left, whatever chains came before, every interleaved run is a run of the
    * atomic queue, so at most one job is ever waiting or delayed. */
  lemma {:induction false} SoleTokenRefines(cfg: Config, s: State, i: nat, steps: seq<Step>)
    requires cfg.requeueSkipsActive && SoleToken(s, i) && Bootstrap !in steps
    ensures View(Run(cfg, s, steps)) == DoAll(View(s), MeaningOfRun(cfg, s, steps))
    ensures View(Run(cfg, s, steps)).waiting + View(Run(cfg, s, steps)).delayed <= 1
    decreases |steps|
  {
    if steps == [] {
      ViewOfOne(s, i);
    } else {
      assert steps[0] in steps;
      var s' := Apply(cfg, s, steps[0]);
      StepRefines(cfg, s, i, steps[0]);
      SoleStep(cfg, s, i, steps[0]);
      SoleTokenRefines(cfg, s', i, steps[1..]);
      DoAllConcat(View(s), Meaning(s, steps[0]), MeaningOfRun(cfg, s', steps[1..]));
    }
  }

  /** Reading a count changes nothing in Redis. */
  lemma ReadKeepsView(cfg: Config, s: State, i: nat)
    requires i < |s.chains| && s.chains[i].Call? && !s.chains[i].phase.Decide?
    ensures var s' := Apply(cfg, s, Advance(i));
      View(s') == View(s) && s' == SetToken(s, i, s'.chains[i])
  {
    ViewUpdate(s, i, Apply(cfg, s, Advance(i)).chains[i]);
  }

  /** The first two reads of a call, uninterrupted. */
  lemma TwoReads(cfg: Config, s: State, i: nat, delay: nat, skipActive: bool)
    requires i < |s.chains| && s.chains[i] == Token.Call(ReadWaiting, 0, delay, skipActive)
    ensures var s2 := Apply(cfg, Apply(cfg, s, Advance(i)), Advance(i));
      && |s2.chains| == |s.chains| && View(s2) == View(s)
      && s2.chains[i] == Token.Call(
           if skipActive then Decide else ReadActive, View(s).waiting + View(s).delayed, delay, skipActive)
  {
    ReadKeepsView(cfg, s, i);
    ReadKeepsView(cfg, Apply(cfg, s, Advance(i)), i);
  }

  lemma DecideIsCall(cfg: Config, s: State, i: nat, delay: nat, skipActive: bool)
    requires i < |s.chains| && s.chains[i] == Token.Call(Decide, Seen(View(s), skipActive), delay, skipActive)
    ensures View(Apply(cfg, s, Advance(i))) == Do(View(s), Op.Call(delay, skipActive))
  {
    ViewUpdate(s, i, Apply(cfg, s, Advance(i)).chains[i]);
  }

  /** The three or four steps of a call, uninterrupted, are the atomic call. */
  lemma UninterruptedCall(cfg: Config, s: State, i: nat, delay: nat, skipActive: bool)
    requires i < |s.chains| && s.chains[i] == Token.Call(ReadWaiting, 0, delay, skipActive)
    ensures var a := Advance(i);
      View(Run(cfg, s, if skipActive then [a, a, a] else [a, a, a, a])) == Do(View(s), Op.Call(delay, skipActive))
  {
    var a := Advance(i);
    var s2 := Apply(cfg, Apply(cfg, s, a), a);
    TwoReads(cfg, s, i, delay, skipActive);
    RunThree(cfg, s, a, a, a);
    if skipActive {
      DecideIsCall(cfg, s2, i, delay, true);
    } else {
      ReadKeepsView(cfg, s2, i);
      DecideIsCall(cfg, Apply(cfg, s2, a), i, delay, false);
      assert [a, a, a, a] == [a, a, a] + [a];
      RunSnoc(cfg, s, [a, a, a], a);
    }
  }

  // ----- How many jobs the seeds can put into the queue

  lemma {:induction false} Bootstraps(cfg: Config, s: State, n: nat) returns (steps: seq<Step>)
    ensures var s' := Run(cfg, s, steps);
      && s'.chains == s.chains + seq(n, _ => Boot(cfg.obliterations)) && s'.launches == s.launches + seq(n, _ => [])
      && s'.running == s.running && s'.bootstraps == s.bootstraps + n && s'.now == s.now
  {
    if n == 0 {
      steps := [];
    } else {
      var init := Bootstraps(cfg, s, n - 1);
      RunSnoc(cfg, s, init, Bootstrap);
      steps := init + [Bootstrap];
    }
  }

  lemma {:induction false} AllAreJobs(ts: seq<Token>)
    requires forall i | 0 <= i < |ts| :: ts[i].Waiting? || ts[i].Delayed?
    ensures Sum(WaitingJobs, ts) + Sum(DelayedJobs, ts) == |ts|
  {
    if ts != [] {
      AllAreJobs(ts[..|ts| - 1]);
    }
  }

  function Deciding(cfg: Config): Token { Token.Call(Decide, 0, cfg.recheckDelay, cfg.requeueSkipsActive) }

  /** The requeue calls of the jobs left over have read zeros, and have yet to add a job each. */
  lemma LeftoversDecide(cfg: Config, s: State) returns (steps: seq<Step>)
    requires Initial(s)
    ensures var s' := Run(cfg, s, steps);
      && |s'.chains| == |s.chains| && Alike(s', 0, |s.chains|, Deciding(cfg), [s'.now])
      && s'.running == 0 && s'.bootstraps == 0
  {
    var launch := LeftoversLaunch(cfg, s);
    var s1 := Run(cfg, s, launch);
    var k := if cfg.requeueSkipsActive then 2 else 3;
    RequeuesDecide(cfg, s1.now);
    var read := SweepMany(cfg, s1, 0, |s.chains|, Requeue(cfg), [s1.now], k);
    RunConcat(cfg, s, launch, read);
    steps := launch + read;
  }

  lemma RequeuesDecide(cfg: Config, now: nat)
    ensures var k := if cfg.requeueSkipsActive then 2 else 3;
      Quietly(cfg, now, Requeue(cfg), k) && AfterMany(cfg, now, Requeue(cfg), k) == Deciding(cfg)
  {
    var c := Deciding(cfg);
    var c1, c2 := c.(phase := ReadDelayed), c.(phase := ReadActive);
    assert Quietly(cfg, now, Deciding(cfg), 0) && AfterMany(cfg, now, Deciding(cfg), 0) == Deciding(cfg);
    if cfg.requeueSkipsActive {
      assert Quietly(cfg, now, c1, 1) && AfterMany(cfg, now, c1, 1) == Deciding(cfg);
    } else {
      assert Quietly(cfg, now, c2, 1) && AfterMany(cfg, now, c2, 1) == Deciding(cfg);
      assert Quietly(cfg, now, c1, 2) && AfterMany(cfg, now, c1, 2) == Deciding(cfg);
    }
  }

  /** Seeds whose calls take turns, and then the calls that have read zeros long ago: every one of
    * them puts a job into the queue. */
  lemma SeedsThenLeftovers(cfg: Config, s: State, k: nat, n: nat) returns (steps: seq<Step>)
    requires |s.chains| == k && Alike(s, 0, k, Deciding(cfg), [s.now]) && s.running == 0 && s.bootstraps == 0
    ensures var s' := Run(cfg, s, steps); s'.bootstraps == n && View(s').waiting + View(s').delayed == k + n
  {
    var boots := Bootstraps(cfg, s, n);
    var s1 := Run(cfg, s, boots);
    var seeds := SeedsSideBySide(cfg, s1, k, k + n, cfg.obliterations);
    var s2 := Run(cfg, s1, seeds);
    var add := Sweep(cfg, s2, 0, k, Deciding(cfg), [s.now]);
    RunConcat(cfg, s, boots, seeds);
    RunConcat(cfg, s, boots + seeds, add);
    steps := boots + seeds + add;
    AllAreJobs(Run(cfg, s, steps).chains);
  }

  ghost predicate JobsWithin(cfg: Config, s: State, steps: seq<Step>, seeds: nat, jobs: nat) {
    var r := Run(cfg, s, steps);
    r.bootstraps <= seeds ==> View(r).waiting + View(r).delayed <= jobs
  }

  /** From a start with any jobs left over, n seeds never leave more than m jobs in the queue, in all
    * runs and whatever they obliterate, exactly when n and the jobs left over are at most m. In
    * particular two seeds are enough for a second job, or one seed and one job left over. */
  lemma JobsWithinIff(cfg: Config, s: State, n: nat, m: nat)
    requires Initial(s)
    ensures (forall steps :: JobsWithin(cfg, s, steps, n, m)) <==> |s.chains| + n <= m
  {
    if |s.chains| + n <= m {
      forall steps
        ensures JobsWithin(cfg, s, steps, n, m)
      {
        ChainsAreConserved(cfg, s, steps);
      }
    } else {
      var decide := LeftoversDecide(cfg, s);
      var add := SeedsThenLeftovers(cfg, Run(cfg, s, decide), |s.chains|, n);
      RunConcat(cfg, s, decide, add);
      assert !JobsWithin(cfg, s, decide + add, n, m);
    }
  }
}
