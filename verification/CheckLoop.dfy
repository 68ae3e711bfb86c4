/** The self-rescheduling check loop, as a machine whose steps interleave freely.
  *
  * Any number of worker processes share one Redis queue. A chain is what one bootstrap, or one
  * job left over in Redis, gives rise to: its token is at any moment a bootstrapper, a
  * queueCheckBalances call in flight, or one check-balances job. Every Redis read and every
  * Redis write is a step of its own, so anything can happen between two reads of one call.
  */
module CheckLoop {

  /** recheckDelay in milliseconds; whether a requeue call leaves out the active count (the
    * code says yes); how many times a bootstrapper obliterates the queue before it seeds it. */
  datatype Config = Config(recheckDelay: nat, requeueSkipsActive: bool, obliterations: nat)

  /** Where a queueCheckBalances call stands: the Redis operation it issues next. */
  datatype Phase = ReadWaiting | ReadDelayed | ReadActive | Decide

  datatype Token =
    | Boot(obliterations: nat)
    | Call(phase: Phase, sum: nat, delay: nat, skipActive: bool)
    | Delayed(readyAt: nat)
    | Waiting
    | Picked(listed: bool)  // a worker has it but process() has not run; listed: still in Redis's active list
    | Declined
    | Obliterated

  /** `running` counts the jobs in the active list whose process() has already run. `seeded` says
    * that a job has been added since the last obliterate. `launches[i]` are the times at which
    * chain i launched a flow; the last three fields count what has happened so far. */
  datatype State = State(
    now: nat, chains: seq<Token>, running: nat, seeded: bool, launches: seq<seq<nat>>,
    bootstraps: nat, declined: nat, obliterated: nat)

  datatype Step =
    | Tick(ms: nat)
    | Bootstrap
    | Complete
    | Advance(chain: nat)

  // ----- Counting over the chains

  datatype Measure = WaitingJobs | DelayedJobs | ListedJobs | LiveTokens | Ranks | DeclinedCalls | ObliteratedJobs

  predicate Unprocessed(t: Token) {
    t.Waiting? || t.Delayed? || t.Picked?
  }

  predicate Live(t: Token) {
    !t.Declined? && !t.Obliterated?
  }

  /** How many steps a token can still take before its chain launches a flow or ends. */
  function Rank(t: Token): nat {
    match t
    case Boot(k) => 9 + k
    case Call(ReadWaiting, _, _, _) => 8
    case Call(ReadDelayed, _, _, _) => 7
    case Call(ReadActive, _, _, _) => 6
    case Call(Decide, _, _, _) => 5
    case Delayed(_) => 4
    case Waiting => 3
    case Picked(_) => 2
    case Declined => 0
    case Obliterated => 0
  }

  function Weight(m: Measure, t: Token): nat {
    match m
    case WaitingJobs => if t.Waiting? then 1 else 0
    case DelayedJobs => if t.Delayed? then 1 else 0
    case ListedJobs => if t.Picked? && t.listed then 1 else 0
    case LiveTokens => if Live(t) then 1 else 0
    case Ranks => Rank(t)
    case DeclinedCalls => if t.Declined? then 1 else 0
    case ObliteratedJobs => if t.Obliterated? then 1 else 0
  }

  function Sum(m: Measure, ts: seq<Token>): nat {
    if ts == [] then 0 else Sum(m, ts[..|ts| - 1]) + Weight(m, ts[|ts| - 1])
  }

  function WaitingCount(s: State): nat { Sum(WaitingJobs, s.chains) }
  function DelayedCount(s: State): nat { Sum(DelayedJobs, s.chains) }
  function ActiveCount(s: State): nat { Sum(ListedJobs, s.chains) + s.running }

  // ----- The steps

  /** obliterate({force: true}) deletes every job; a worker that already has one keeps running it. */
  function WipeToken(t: Token): Token {
    match t
    case Waiting => Obliterated
    case Delayed(_) => Obliterated
    case Picked(_) => Picked(false)
    case _ => t
  }

  function Wipe(ts: seq<Token>): (r: seq<Token>)
    ensures |r| == |ts|
    ensures forall j | 0 <= j < |ts| :: r[j] == WipeToken(ts[j])
  {
    if ts == [] then [] else Wipe(ts[..|ts| - 1]) + [WipeToken(ts[|ts| - 1])]
  }

  function SetToken(s: State, i: nat, t: Token): State
    requires i < |s.chains|
  {
    s.(chains := s.chains[i := t])
  }

  function Obliterate(s: State, i: nat, k: nat): State
    requires i < |s.chains|
  {
    s.(chains := Wipe(s.chains)[i := Boot(k)], running := 0, seeded := false,
       obliterated := s.obliterated + WaitingCount(s) + DelayedCount(s))
  }

  /** add('check-balances', {}, { delay }): a job without a delay is waiting at once. */
  function NewJob(now: nat, delay: nat): Token {
    if delay == 0 then Waiting else Delayed(now + delay)
  }

  function AdvanceCall(s: State, i: nat, c: Token): State
    requires i < |s.chains| && c.Call?
  {
    match c.phase
    case ReadWaiting =>
      SetToken(s, i, c.(phase := ReadDelayed, sum := c.sum + WaitingCount(s)))
    case ReadDelayed =>
      SetToken(s, i, c.(phase := if c.skipActive then Decide else ReadActive, sum := c.sum + DelayedCount(s)))
    case ReadActive =>
      SetToken(s, i, c.(phase := Decide, sum := c.sum + ActiveCount(s)))
    case Decide =>
      if c.sum > 0 then SetToken(s, i, Declined).(declined := s.declined + 1)
      else SetToken(s, i, NewJob(s.now, c.delay)).(seeded := true)
  }

  /** A worker runs process(): the flow is launched and the requeue call starts, un-awaited. */
  function ProcessJob(cfg: Config, s: State, i: nat, listed: bool): State
    requires i < |s.chains|
  {
    var s' := SetToken(s, i, Call(ReadWaiting, 0, cfg.recheckDelay, cfg.requeueSkipsActive));
    s'.(running := if listed then s.running + 1 else s.running,
        launches := if i < |s.launches| then s.launches[i := s.launches[i] + [s.now]] else s.launches)
  }

  function AdvanceChain(cfg: Config, s: State, i: nat): State
    requires i < |s.chains|
  {
    match s.chains[i]
    case Boot(k) =>
      if k > 0 then Obliterate(s, i, k - 1) else SetToken(s, i, Call(ReadWaiting, 0, 0, false))
    case Call(_, _, _, _) => AdvanceCall(s, i, s.chains[i])
    case Delayed(r) => if r <= s.now then SetToken(s, i, Waiting) else s
    case Waiting => SetToken(s, i, Picked(true))
    case Picked(listed) => ProcessJob(cfg, s, i, listed)
    case Declined => s
    case Obliterated => s
  }

  /** A step that is not enabled leaves the state as it is. */
  function Apply(cfg: Config, s: State, step: Step): State {
    match step
    case Tick(ms) => s.(now := s.now + ms)
    case Bootstrap =>
      s.(chains := s.chains + [Boot(cfg.obliterations)], launches := s.launches + [[]], bootstraps := s.bootstraps + 1)
    case Complete => if s.running > 0 then s.(running := s.running - 1) else s
    case Advance(i) => if i < |s.chains| then AdvanceChain(cfg, s, i) else s
  }

  function Run(cfg: Config, s: State, steps: seq<Step>): State
    decreases |steps|
  {
    if steps == [] then s else Run(cfg, Apply(cfg, s, steps[0]), steps[1..])
  }

  /** A start: only jobs left over in Redis, none of them in a worker's hands. */
  predicate Initial(s: State) {
    && (forall i | 0 <= i < |s.chains| :: s.chains[i].Waiting? || s.chains[i].Delayed?)
    && s.running == 0
    && s.seeded == (s.chains != [])
    && s.launches == seq(|s.chains|, _ => [])
    && s.bootstraps == s.declined == s.obliterated == 0
  }

  // ----- Lemmas about counting and running

  lemma SumUpdate(m: Measure, ts: seq<Token>, i: nat, t: Token)
    requires i < |ts|
    ensures Sum(m, ts[i := t]) + Weight(m, ts[i]) == Sum(m, ts) + Weight(m, t)
  {
    var n := |ts| - 1;
    if i == n {
      assert ts[i := t][..n] == ts[..n];
    } else {
      assert ts[i := t][..n] == ts[..n][i := t];
      SumUpdate(m, ts[..n], i, t);
    }
  }

  lemma SumAppend(m: Measure, ts: seq<Token>, t: Token)
    ensures Sum(m, ts + [t]) == Sum(m, ts) + Weight(m, t)
  {
    assert (ts + [t])[..|ts|] == ts;
  }

  lemma SumSingle(m: Measure, t: Token)
    ensures Sum(m, [t]) == Weight(m, t)
  {
    SumAppend(m, [], t);
    assert [] + [t] == [t];
  }

  lemma SumPositive(m: Measure, ts: seq<Token>) returns (i: nat)
    requires Sum(m, ts) > 0
    ensures i < |ts| && Weight(m, ts[i]) > 0
  {
    if Weight(m, ts[|ts| - 1]) > 0 {
      i := |ts| - 1;
    } else {
      i := SumPositive(m, ts[..|ts| - 1]);
    }
  }

  lemma SumWipe(ts: seq<Token>)
    ensures Sum(LiveTokens, Wipe(ts)) + Sum(WaitingJobs, ts) + Sum(DelayedJobs, ts) == Sum(LiveTokens, ts)
    ensures Sum(Ranks, Wipe(ts)) <= Sum(Ranks, ts)
    ensures Sum(DeclinedCalls, Wipe(ts)) == Sum(DeclinedCalls, ts)
    ensures Sum(ObliteratedJobs, Wipe(ts)) == Sum(ObliteratedJobs, ts) + Sum(WaitingJobs, ts) + Sum(DelayedJobs, ts)
    ensures Sum(WaitingJobs, Wipe(ts)) == Sum(DelayedJobs, Wipe(ts)) == Sum(ListedJobs, Wipe(ts)) == 0
  {
    if ts != [] {
      SumWipe(ts[..|ts| - 1]);
      assert Wipe(ts)[..|ts| - 1] == Wipe(ts[..|ts| - 1]);
    }
  }

  lemma RunSnoc(cfg: Config, s: State, steps: seq<Step>, step: Step)
    ensures Run(cfg, s, steps + [step]) == Apply(cfg, Run(cfg, s, steps), step)
    decreases |steps|
  {
    if steps == [] {
      assert [step][1..] == [];
    } else {
      assert (steps + [step])[1..] == steps[1..] + [step];
      RunSnoc(cfg, Apply(cfg, s, steps[0]), steps[1..], step);
    }
  }

  lemma RunConcat(cfg: Config, s: State, xs: seq<Step>, ys: seq<Step>)
    ensures Run(cfg, s, xs + ys) == Run(cfg, Run(cfg, s, xs), ys)
    decreases |xs|
  {
    if xs == [] {
      assert xs + ys == ys;
    } else {
      assert (xs + ys)[1..] == xs[1..] + ys;
      RunConcat(cfg, Apply(cfg, s, xs[0]), xs[1..], ys);
    }
  }

  lemma RunThree(cfg: Config, s: State, x: Step, y: Step, z: Step)
    ensures Run(cfg, s, [x, y, z]) == Apply(cfg, Apply(cfg, Apply(cfg, s, x), y), z)
  {
    var s1 := Apply(cfg, s, x);
    var s2 := Apply(cfg, s1, y);
    assert Run(cfg, s2, [z]) == Apply(cfg, s2, z);
    assert [y, z][1..] == [z];
    assert Run(cfg, s1, [y, z]) == Run(cfg, s2, [z]);
    assert [x, y, z][1..] == [y, z];
  }
}
