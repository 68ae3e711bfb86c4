/** A wallet of Turbo credits under checks, the query for pending top-ups, and credits that land. The
  * check reads the balance first, then asks for pending top-ups, then reads their statuses; credits
  * can land between any two of these. */
module TurboWallet {
  import opened Options
  import Checks
  import TurboDedup

  /** calm: no credits land while a check of the wallet is between its balance read and its verdict.
    * prompt: credits land only while their top-up is pending and in the window. */
  datatype Config = Config(dedup: TurboDedup.Config, rule: Checks.Rule, wallet: string, calm: bool, prompt: bool)

  /** Amounts in winc. `asks` are the requests of checks that have read the balance and not yet
    * queried; `asked[k]` is the request behind check k, `owed[i]` the one behind top-up i, both
    * zero for other wallets; `credited` are the top-ups whose credits have landed. */
  datatype State = State(
    dedup: TurboDedup.State, balance: nat, asks: seq<int>, asked: seq<int>, owed: seq<int>, credited: set<nat>)

  datatype Step =
    | ReadBalance(fetched: bool)
    | Query(ask: nat)
    | GiveUp(ask: nat)  // the query fails
    | Other(step: TurboDedup.Step)
    | Credit(tx: nat, winc: nat)  // a top-up credits at most what was asked for
    | Outflow(winc: nat)

  predicate Underway(cfg: Config, s: State) {
    s.asks != [] || TurboDedup.Busy(s.dedup, cfg.wallet)
  }

  predicate Undecided(cfg: Config, s: State) {
    || s.asks != []
    || exists k :: 0 <= k < |s.dedup.checks| && s.dedup.checks[k].dest == cfg.wallet && s.dedup.checks[k].phase.Reading?
  }

  function Without(asks: seq<int>, j: nat): seq<int>
    requires j < |asks|
  {
    asks[..j] + asks[j + 1..]
  }

  function StartQuery(cfg: Config, s: State, j: nat): State
    requires j < |s.asks|
  {
    var d := TurboDedup.Apply(cfg.dedup, s.dedup, TurboDedup.Start(cfg.wallet));
    if |d.checks| == |s.dedup.checks| then s
    else s.(dedup := d, asks := Without(s.asks, j), asked := s.asked + [s.asks[j]])
  }

  function DoOther(cfg: Config, s: State, step: TurboDedup.Step): State {
    var d := TurboDedup.Apply(cfg.dedup, s.dedup, step);
    s.(dedup := d,
       asked := if |d.checks| > |s.dedup.checks| then s.asked + [0] else s.asked,
       owed := if |d.txs| > |s.dedup.txs| && step.Submit? && step.check < |s.asked| then s.owed + [s.asked[step.check]]
               else s.owed)
  }

  predicate MayCredit(cfg: Config, s: State, i: nat, winc: nat) {
    && i < |s.dedup.txs| && i < |s.owed| && s.dedup.txs[i].dest == cfg.wallet
    && i !in s.credited && winc <= s.owed[i]
    && (cfg.calm ==> !Undecided(cfg, s))
    && (cfg.prompt ==> TurboDedup.Relevant(cfg.dedup, s.dedup, i))
  }

  function Apply(cfg: Config, s: State, step: Step): State {
    match step
    case ReadBalance(fetched) =>
      if cfg.dedup.serial && Underway(cfg, s) then s
      else
        var r := Checks.Request(cfg.rule, if fetched then Some(s.balance) else None);
        if r == None then s else s.(asks := s.asks + [r.value])
    case Query(j) => if j < |s.asks| then StartQuery(cfg, s, j) else s
    case GiveUp(j) => if j < |s.asks| then s.(asks := Without(s.asks, j)) else s
    case Other(step) => if step == TurboDedup.Start(cfg.wallet) then s else DoOther(cfg, s, step)
    case Credit(i, winc) =>
      if MayCredit(cfg, s, i, winc) then s.(balance := s.balance + winc, credited := s.credited + {i}) else s
    case Outflow(winc) => if winc <= s.balance then s.(balance := s.balance - winc) else s
  }

  function Run(cfg: Config, s: State, steps: seq<Step>): State
    decreases |steps|
  {
    if steps == [] then s else Run(cfg, Apply(cfg, s, steps[0]), steps[1..])
  }

  function Start(balance: nat): State { State(TurboDedup.EMPTY, balance, [], [], [], {}) }

  /** A check whose query fails ends there: under serial checks the wallet may be checked again. */
  lemma GivenUp(cfg: Config, s: State)
    requires |s.asks| == 1 && !TurboDedup.Busy(s.dedup, cfg.wallet)
    ensures Underway(cfg, s) && !Underway(cfg, Apply(cfg, s, GiveUp(0)))
    ensures Apply(cfg, s, GiveUp(0)) == s.(asks := [])
  {
  }

  /** Anything up to the whole balance can flow out at any moment, and no more. */
  lemma OutflowIff(cfg: Config, s: State, winc: nat)
    ensures Apply(cfg, s, Outflow(winc)).balance + winc == s.balance <==> winc <= s.balance
    ensures winc > s.balance ==> Apply(cfg, s, Outflow(winc)) == s
  {
  }

  // ----- Safety

  ghost predicate Shaped(s: State) {
    |s.asked| == |s.dedup.checks| && |s.owed| == |s.dedup.txs|
  }

  /** At most one check of the wallet is underway, and what it asks for still fits below max. */
  ghost predicate ChecksFit(cfg: Config, s: State)
    requires Shaped(s)
  {
    && |s.asks| <= 1 && (s.asks != [] ==> !TurboDedup.Busy(s.dedup, cfg.wallet))
    && (forall j | 0 <= j < |s.asks| :: s.asks[j] + s.balance <= cfg.rule.max)
    && (forall k | 0 <= k < |s.dedup.checks| && s.dedup.checks[k].dest == cfg.wallet ::
          s.dedup.checks[k].phase.Done? || s.asked[k] + s.balance <= cfg.rule.max)
  }

  /** So does what a top-up that may still land has been asked for. */
  ghost predicate TopUpsFit(cfg: Config, s: State)
    requires Shaped(s)
  {
    forall i: nat | i < |s.dedup.txs| && s.dedup.txs[i].dest == cfg.wallet && i !in s.credited
                    && TurboDedup.Relevant(cfg.dedup, s.dedup, i) ::
      s.owed[i] + s.balance <= cfg.rule.max
  }

  ghost predicate WalletInv(cfg: Config, s: State, limit: nat) {
    && TurboDedup.DedupInv(cfg.dedup, s.dedup) && Shaped(s) && ChecksFit(cfg, s) && TopUpsFit(cfg, s)
    && cfg.rule.max <= limit && s.balance <= limit
  }

  lemma ReadBalanceKeeps(cfg: Config, s: State, fetched: bool, limit: nat)
    requires cfg.dedup.serial && WalletInv(cfg, s, limit)
    ensures WalletInv(cfg, Apply(cfg, s, ReadBalance(fetched)), limit)
  {
  }

  lemma QueryKeeps(cfg: Config, s: State, j: nat, limit: nat)
    requires cfg.dedup.serial && WalletInv(cfg, s, limit) && j < |s.asks|
    ensures WalletInv(cfg, StartQuery(cfg, s, j), limit)
  {
    TurboDedup.StepKeepsInv(cfg.dedup, s.dedup, TurboDedup.Start(cfg.wallet));
    assert Without(s.asks, j) == [];
  }

  lemma SubmitKeeps(cfg: Config, s: State, k: nat, limit: nat)
    requires cfg.dedup.serial && WalletInv(cfg, s, limit)
    ensures WalletInv(cfg, DoOther(cfg, s, TurboDedup.Submit(k)), limit)
  {
    TurboDedup.StepKeepsInv(cfg.dedup, s.dedup, TurboDedup.Submit(k));
    var s' := DoOther(cfg, s, TurboDedup.Submit(k));
    assert forall i | 0 <= i < |s.dedup.txs| :: s'.dedup.txs[i] == s.dedup.txs[i] && s'.owed[i] == s.owed[i];
  }

  lemma CheckElsewhereKeeps(cfg: Config, s: State, dest: string, limit: nat)
    requires cfg.dedup.serial && WalletInv(cfg, s, limit) && dest != cfg.wallet
    ensures WalletInv(cfg, DoOther(cfg, s, TurboDedup.Start(dest)), limit)
  {
    TurboDedup.StepKeepsInv(cfg.dedup, s.dedup, TurboDedup.Start(dest));
  }

  lemma OtherKeeps(cfg: Config, s: State, step: TurboDedup.Step, limit: nat)
    requires cfg.dedup.serial && WalletInv(cfg, s, limit) && step != TurboDedup.Start(cfg.wallet)
    ensures WalletInv(cfg, DoOther(cfg, s, step), limit)
  {
    if step.Submit? {
      SubmitKeeps(cfg, s, step.check, limit);
    } else if step.Start? {
      CheckElsewhereKeeps(cfg, s, step.dest, limit);
    } else {
      TurboDedup.StepKeepsInv(cfg.dedup, s.dedup, step);
    }
  }

  /** A top-up that may land is the only one, and no check of the wallet is underway. */
  lemma CreditKeeps(cfg: Config, s: State, i: nat, winc: nat, limit: nat)
    requires cfg.calm && cfg.prompt && WalletInv(cfg, s, limit) && MayCredit(cfg, s, i, winc)
    ensures WalletInv(cfg, Apply(cfg, s, Credit(i, winc)), limit)
  {
    forall k | 0 <= k < |s.dedup.checks| && s.dedup.checks[k].dest == cfg.wallet
      ensures s.dedup.checks[k].phase.Done?
    {
      assert TurboDedup.CheckCovers(cfg.dedup, s.dedup, s.dedup.checks[k]);
    }
  }

  lemma StepKeepsWallet(cfg: Config, s: State, step: Step, limit: nat)
    requires cfg.dedup.serial && cfg.calm && cfg.prompt && WalletInv(cfg, s, limit)
    ensures WalletInv(cfg, Apply(cfg, s, step), limit)
  {
    match step
    case ReadBalance(fetched) => ReadBalanceKeeps(cfg, s, fetched, limit);
    case Query(j) => if j < |s.asks| { QueryKeeps(cfg, s, j, limit); }
    case GiveUp(j) =>
    case Other(step) => if step != TurboDedup.Start(cfg.wallet) { OtherKeeps(cfg, s, step, limit); }
    case Credit(i, winc) => if MayCredit(cfg, s, i, winc) { CreditKeeps(cfg, s, i, winc, limit); }
    case Outflow(_) =>
  }

  lemma {:induction false} RunKeepsWallet(cfg: Config, s: State, steps: seq<Step>, limit: nat)
    requires cfg.dedup.serial && cfg.calm && cfg.prompt && WalletInv(cfg, s, limit)
    ensures WalletInv(cfg, Run(cfg, s, steps), limit)
    decreases |steps|
  {
    if steps != [] {
      StepKeepsWallet(cfg, s, steps[0], limit);
      RunKeepsWallet(cfg, Apply(cfg, s, steps[0]), steps[1..], limit);
    }
  }

  // ----- Runs that pay twice

  lemma {:induction false} RunConcat(cfg: Config, s: State, xs: seq<Step>, ys: seq<Step>)
    ensures Run(cfg, s, xs + ys) == Run(cfg, Run(cfg, s, xs), ys)
    decreases |xs|
  {
    if xs == [] {
      assert xs + ys == ys;
    } else {
      assert (xs + ys)[1..] == xs[1..] + ys;
      RunConcat(cfg, Apply(cfg, s, xs[0]), xs[1..], ys);
    }
  }

  lemma RunTwo(cfg: Config, s: State, x: Step, y: Step)
    ensures Run(cfg, s, [x, y]) == Apply(cfg, Apply(cfg, s, x), y)
  {
    assert [x, y][1..] == [y];
    assert Run(cfg, Apply(cfg, s, x), [y]) == Apply(cfg, Apply(cfg, s, x), y);
  }

  lemma RunFour(cfg: Config, s: State, a: Step, b: Step, c: Step, d: Step)
    ensures Run(cfg, s, [a, b] + [c, d]) == Apply(cfg, Apply(cfg, Apply(cfg, Apply(cfg, s, a), b), c), d)
  {
    RunConcat(cfg, s, [a, b], [c, d]);
    RunTwo(cfg, s, a, b);
    RunTwo(cfg, Apply(cfg, Apply(cfg, s, a), b), c, d);
  }

  /** A wallet that asks when it is empty, and for a positive amount. */
  predicate Asks(cfg: Config) { 0 < cfg.rule.min <= cfg.rule.max && !cfg.rule.zeroIsFailure }

  function Tx(cfg: Config, status: TurboDedup.Status): TurboDedup.Tx { TurboDedup.Tx(cfg.wallet, None, status) }

  function Check(cfg: Config, phase: TurboDedup.Phase): TurboDedup.Check { TurboDedup.Check(cfg.wallet, phase) }

  /** The wallet, empty, after its first top-up has been submitted. */
  function ToppedUp(cfg: Config): State {
    var m := cfg.rule.max;
    State(TurboDedup.State(0, [Tx(cfg, TurboDedup.Pending)], [Check(cfg, TurboDedup.Done)]), 0, [], [m], [m], {})
  }

  function FirstSteps(): seq<Step> {
    [ReadBalance(true), Query(0)] + [Other(TurboDedup.Read(0, true)), Other(TurboDedup.Submit(0))]
  }

  /** An empty wallet, whose first check has found no top-up. */
  function Queried(cfg: Config): State {
    State(TurboDedup.State(0, [], [Check(cfg, TurboDedup.Reading([]))]), 0, [], [cfg.rule.max], [], {})
  }

  lemma FirstQuery(cfg: Config)
    requires Asks(cfg)
    ensures Apply(cfg, Apply(cfg, Start(0), ReadBalance(true)), Query(0)) == Queried(cfg)
  {
    var s := Apply(cfg, Start(0), ReadBalance(true));
    assert s == Start(0).(asks := [cfg.rule.max]);
    assert TurboDedup.Query([], cfg.wallet, 0, cfg.dedup.ttl) == [];
  }

  lemma FirstSubmit(cfg: Config)
    ensures Apply(cfg, Apply(cfg, Queried(cfg), Other(TurboDedup.Read(0, true))), Other(TurboDedup.Submit(0)))
         == ToppedUp(cfg)
  {
    var s := Apply(cfg, Queried(cfg), Other(TurboDedup.Read(0, true)));
    assert s.dedup == TurboDedup.State(0, [], [Check(cfg, TurboDedup.Queued)]);
    assert s == Queried(cfg).(dedup := s.dedup);
  }

  lemma FirstTopUp(cfg: Config)
    requires Asks(cfg)
    ensures Run(cfg, Start(0), FirstSteps()) == ToppedUp(cfg)
  {
    RunFour(cfg, Start(0), ReadBalance(true), Query(0), Other(TurboDedup.Read(0, true)), Other(TurboDedup.Submit(0)));
    FirstQuery(cfg);
    FirstSubmit(cfg);
  }

  /** A second check has read the balance as zero; the first top-up is no longer pending. */
  function ReadTooEarly(cfg: Config, balance: nat, credited: set<nat>): State {
    var m := cfg.rule.max;
    State(TurboDedup.State(0, [Tx(cfg, TurboDedup.Confirmed)], [Check(cfg, TurboDedup.Done)]),
          balance, [m], [m], [m], credited)
  }

  function ToppedUpTwice(cfg: Config, balance: nat, credited: set<nat>): State {
    var m := cfg.rule.max;
    State(TurboDedup.State(0, [Tx(cfg, TurboDedup.Confirmed), Tx(cfg, TurboDedup.Pending)],
                           [Check(cfg, TurboDedup.Done), Check(cfg, TurboDedup.Done)]),
          balance, [], [m, m], [m, m], credited)
  }

  lemma OneTxQuery(cfg: Config, tx: TurboDedup.Tx)
    requires tx.dest == cfg.wallet && tx.block == None
    ensures TurboDedup.Query([tx], cfg.wallet, 0, cfg.dedup.ttl) == [0]
  {
    var txs := [tx];
    assert TurboDedup.Newest(txs[..0], cfg.wallet, TurboDedup.FIRST - 1) == [];
    var ids := TurboDedup.Newest(txs, cfg.wallet, TurboDedup.FIRST);
    assert ids == [0] && ids[1..] == [];
    assert TurboDedup.KeepInWindow(txs, ids[1..], 0, cfg.dedup.ttl) == [];
  }

  function SecondTopUpSteps(): seq<Step> {
    [Query(0), Other(TurboDedup.Read(1, true))] + [Other(TurboDedup.Read(1, true)), Other(TurboDedup.Submit(1))]
  }

  /** The second check's query has found the first top-up. */
  function FoundFirst(cfg: Config, balance: nat, credited: set<nat>): State {
    var m := cfg.rule.max;
    State(TurboDedup.State(0, [Tx(cfg, TurboDedup.Confirmed)], SecondCheck(cfg, TurboDedup.Reading([0]))),
          balance, [], [m, m], [m], credited)
  }

  function SecondCheck(cfg: Config, phase: TurboDedup.Phase): seq<TurboDedup.Check> {
    [Check(cfg, TurboDedup.Done), Check(cfg, phase)]
  }

  lemma SecondQuery(cfg: Config, balance: nat, credited: set<nat>)
    ensures Apply(cfg, ReadTooEarly(cfg, balance, credited), Query(0)) == FoundFirst(cfg, balance, credited)
  {
    OneTxQuery(cfg, Tx(cfg, TurboDedup.Confirmed));
  }

  /** It reads a status that is no longer pending. */
  lemma SecondVerdict(cfg: Config, balance: nat, credited: set<nat>)
    ensures var s := FoundFirst(cfg, balance, credited);
      Apply(cfg, Apply(cfg, s, Other(TurboDedup.Read(1, true))), Other(TurboDedup.Read(1, true)))
      == s.(dedup := s.dedup.(checks := SecondCheck(cfg, TurboDedup.Queued)))
  {
    var s := FoundFirst(cfg, balance, credited);
    var s1 := Apply(cfg, s, Other(TurboDedup.Read(1, true)));
    assert [0 as nat][1..] == [];
    assert s1.dedup.checks == SecondCheck(cfg, TurboDedup.Reading([]));
    assert s1 == s.(dedup := s.dedup.(checks := SecondCheck(cfg, TurboDedup.Reading([]))));
    assert Apply(cfg, s1, Other(TurboDedup.Read(1, true))).dedup.checks == SecondCheck(cfg, TurboDedup.Queued);
  }

  lemma SecondSubmit(cfg: Config, balance: nat, credited: set<nat>)
    ensures var s := FoundFirst(cfg, balance, credited);
      Apply(cfg, s.(dedup := s.dedup.(checks := SecondCheck(cfg, TurboDedup.Queued))), Other(TurboDedup.Submit(1)))
      == ToppedUpTwice(cfg, balance, credited)
  {
  }

  lemma SecondTopUp(cfg: Config, balance: nat, credited: set<nat>)
    ensures Run(cfg, ReadTooEarly(cfg, balance, credited), SecondTopUpSteps()) == ToppedUpTwice(cfg, balance, credited)
  {
    RunFour(cfg, ReadTooEarly(cfg, balance, credited), Query(0), Other(TurboDedup.Read(1, true)),
            Other(TurboDedup.Read(1, true)), Other(TurboDedup.Submit(1)));
    SecondQuery(cfg, balance, credited);
    SecondVerdict(cfg, balance, credited);
    SecondSubmit(cfg, balance, credited);
  }

  ghost predicate StaysWithinMax(cfg: Config, balance: nat, steps: seq<Step>) {
    var s := Run(cfg, Start(balance), steps);
    s.balance <= balance || s.balance <= cfg.rule.max
  }

  /** The second check reads the balance; then the credits land or not, and the status settles. */
  lemma CreditsLandEarly(cfg: Config) returns (steps: seq<Step>)
    requires Asks(cfg) && !cfg.calm
    ensures Run(cfg, ToppedUp(cfg), steps) == ReadTooEarly(cfg, cfg.rule.max, {0})
  {
    var m := cfg.rule.max;
    var settle := Other(TurboDedup.Decide(0, TurboDedup.Confirmed));
    steps := [ReadBalance(true), Credit(0, m)] + [settle];
    var s1 := Apply(cfg, ToppedUp(cfg), ReadBalance(true));
    assert s1 == ToppedUp(cfg).(asks := [m]);
    var s2 := Apply(cfg, s1, Credit(0, m));
    assert s2 == s1.(balance := m, credited := {0});
    RunConcat(cfg, ToppedUp(cfg), [ReadBalance(true), Credit(0, m)], [settle]);
    RunTwo(cfg, ToppedUp(cfg), ReadBalance(true), Credit(0, m));
    assert Run(cfg, s2, [settle]) == Apply(cfg, s2, settle);
  }

  lemma StatusSettlesEarly(cfg: Config) returns (steps: seq<Step>)
    requires Asks(cfg)
    ensures Run(cfg, ToppedUp(cfg), steps) == ReadTooEarly(cfg, 0, {})
  {
    var settle := Other(TurboDedup.Decide(0, TurboDedup.Confirmed));
    steps := [ReadBalance(true), settle];
    var s1 := Apply(cfg, ToppedUp(cfg), ReadBalance(true));
    assert s1 == ToppedUp(cfg).(asks := [cfg.rule.max]);
    RunTwo(cfg, ToppedUp(cfg), ReadBalance(true), settle);
  }

  /** Both runs: the first top-up, what happens to it, the second top-up, and the credits. */
  lemma PaidTwice(cfg: Config, middle: seq<Step>, balance: nat, credited: set<nat>, last: seq<Step>)
    requires Asks(cfg) && Run(cfg, ToppedUp(cfg), middle) == ReadTooEarly(cfg, balance, credited)
    requires Run(cfg, ToppedUpTwice(cfg, balance, credited), last).balance == 2 * cfg.rule.max
    ensures !StaysWithinMax(cfg, 0, FirstSteps() + middle + SecondTopUpSteps() + last)
  {
    FirstTopUp(cfg);
    SecondTopUp(cfg, balance, credited);
    RunConcat(cfg, Start(0), FirstSteps(), middle);
    RunConcat(cfg, Start(0), FirstSteps() + middle, SecondTopUpSteps());
    RunConcat(cfg, Start(0), FirstSteps() + middle + SecondTopUpSteps(), last);
  }

  /** Credits land after the balance has been read and before the pending top-up is looked for. */
  lemma CreditWhileChecking(cfg: Config) returns (steps: seq<Step>)
    requires Asks(cfg) && !cfg.calm
    ensures !StaysWithinMax(cfg, 0, steps)
  {
    var m := cfg.rule.max;
    var middle := CreditsLandEarly(cfg);
    var s := ToppedUpTwice(cfg, m, {0});
    assert MayCredit(cfg, s, 1, m);
    assert Run(cfg, s, [Credit(1, m)]) == Apply(cfg, s, Credit(1, m));
    PaidTwice(cfg, middle, m, {0}, [Credit(1, m)]);
    steps := FirstSteps() + middle + SecondTopUpSteps() + [Credit(1, m)];
  }

  /** The status leaves pending before the credits land. */
  lemma CreditTooLate(cfg: Config) returns (steps: seq<Step>)
    requires Asks(cfg) && !cfg.prompt
    ensures !StaysWithinMax(cfg, 0, steps)
  {
    var last := [Credit(0, cfg.rule.max), Credit(1, cfg.rule.max)];
    var middle := StatusSettlesEarly(cfg);
    BothLand(cfg, ToppedUpTwice(cfg, 0, {}));
    PaidTwice(cfg, middle, 0, {}, last);
    steps := FirstSteps() + middle + SecondTopUpSteps() + last;
  }

  lemma BothLand(cfg: Config, s: State)
    requires s.balance == 0 && s.asks == [] && s.credited == {} && s.owed == [cfg.rule.max, cfg.rule.max]
    requires cfg.rule.max >= 0 && forall k | 0 <= k < |s.dedup.checks| :: s.dedup.checks[k].phase.Done?
    requires |s.dedup.txs| == 2 && s.dedup.txs[0].dest == s.dedup.txs[1].dest == cfg.wallet
    requires cfg.prompt ==> forall i: nat | i < 2 :: TurboDedup.Relevant(cfg.dedup, s.dedup, i)
    ensures Run(cfg, s, [Credit(0, cfg.rule.max), Credit(1, cfg.rule.max)]).balance == 2 * cfg.rule.max
  {
    var m := cfg.rule.max;
    RunTwo(cfg, s, Credit(0, m), Credit(1, m));
    assert MayCredit(cfg, s, 0, m);
    assert MayCredit(cfg, Apply(cfg, s, Credit(0, m)), 1, m);
  }

  /** Two checks run side by side; neither finds a top-up. */
  lemma TwoChecksAtOnce(cfg: Config) returns (steps: seq<Step>)
    requires Asks(cfg) && !cfg.dedup.serial
    ensures !StaysWithinMax(cfg, 0, steps)
  {
    var m := cfg.rule.max;
    var asks := [ReadBalance(true), ReadBalance(true)] + [Query(0), Query(0)];
    var verdicts := [Other(TurboDedup.Read(0, true)), Other(TurboDedup.Read(1, true))];
    var submits := [Other(TurboDedup.Submit(0)), Other(TurboDedup.Submit(1))];
    BothQuery(cfg);
    var s := Run(cfg, Start(0), asks);
    RunConcat(cfg, Start(0), asks, verdicts + submits);
    BothSubmit(cfg, s);
    BothLand(cfg, Run(cfg, s, verdicts + submits));
    RunConcat(cfg, Start(0), asks + (verdicts + submits), [Credit(0, m), Credit(1, m)]);
    steps := asks + (verdicts + submits) + [Credit(0, m), Credit(1, m)];
  }

  lemma BothQuery(cfg: Config)
    requires Asks(cfg) && !cfg.dedup.serial
    ensures Run(cfg, Start(0), [ReadBalance(true), ReadBalance(true)] + [Query(0), Query(0)])
         == Start(0).(dedup := BothReading(cfg), asked := [cfg.rule.max, cfg.rule.max])
  {
    RunFour(cfg, Start(0), ReadBalance(true), ReadBalance(true), Query(0), Query(0));
    var m := cfg.rule.max;
    var s2 := Apply(cfg, Apply(cfg, Start(0), ReadBalance(true)), ReadBalance(true));
    assert s2 == Start(0).(asks := [m, m]);
    assert TurboDedup.Query([], cfg.wallet, 0, cfg.dedup.ttl) == [];
    assert Without([m, m], 0) == [m] && Without([m], 0) == [];
    var s3 := Apply(cfg, s2, Query(0));
    assert s3.dedup.checks == [Check(cfg, TurboDedup.Reading([]))] && s3.asks == [m];
    var s4 := Apply(cfg, s3, Query(0));
    assert s4.dedup.checks == BothReading(cfg).checks && s4.asked == [m, m];
  }

  function BothReading(cfg: Config): TurboDedup.State {
    TurboDedup.State(0, [], [Check(cfg, TurboDedup.Reading([])), Check(cfg, TurboDedup.Reading([]))])
  }

  lemma BothSubmit(cfg: Config, s: State)
    requires s == Start(0).(dedup := BothReading(cfg), asked := [cfg.rule.max, cfg.rule.max])
    ensures var r := Run(cfg, s, [Other(TurboDedup.Read(0, true)), Other(TurboDedup.Read(1, true))]
                                 + [Other(TurboDedup.Submit(0)), Other(TurboDedup.Submit(1))]);
      r == s.(dedup := TurboDedup.State(0, [Tx(cfg, TurboDedup.Pending), Tx(cfg, TurboDedup.Pending)],
                                        [Check(cfg, TurboDedup.Done), Check(cfg, TurboDedup.Done)]),
              owed := [cfg.rule.max, cfg.rule.max])
  {
    RunFour(cfg, s, Other(TurboDedup.Read(0, true)), Other(TurboDedup.Read(1, true)),
            Other(TurboDedup.Submit(0)), Other(TurboDedup.Submit(1)));
    var s2 := Apply(cfg, Apply(cfg, s, Other(TurboDedup.Read(0, true))), Other(TurboDedup.Read(1, true)));
    assert s2.dedup.checks == [Check(cfg, TurboDedup.Queued), Check(cfg, TurboDedup.Queued)];
    var s3 := Apply(cfg, s2, Other(TurboDedup.Submit(0)));
    assert s3.dedup.txs == [Tx(cfg, TurboDedup.Pending)] && s3.owed == [cfg.rule.max];
  }

  lemma {:induction false} NeverAsks(cfg: Config, s: State, steps: seq<Step>)
    requires cfg.rule.min <= 0 && s.asks == []
    requires (forall k | 0 <= k < |s.asked| :: s.asked[k] == 0) && (forall i | 0 <= i < |s.owed| :: s.owed[i] == 0)
    ensures Run(cfg, s, steps).balance <= s.balance
    decreases |steps|
  {
    if steps != [] {
      NeverAsks(cfg, Apply(cfg, s, steps[0]), steps[1..]);
    }
  }

  /** Top-ups never take a wallet above max, in all runs and however many loops check it, exactly
    * when a wallet is checked again only after its last refill was submitted or dropped, no credits
    * land while it is being checked, and none land once their top-up is out of sight; but for a
    * wallet that never asks. */
  lemma WithinMaxIff(cfg: Config)
    requires Checks.Sound(cfg.rule) && !cfg.rule.zeroIsFailure
    ensures (forall balance: nat, steps :: StaysWithinMax(cfg, balance, steps))
       <==> (cfg.dedup.serial && cfg.calm && cfg.prompt) || cfg.rule.min == 0
  {
    if (cfg.dedup.serial && cfg.calm && cfg.prompt) || cfg.rule.min == 0 {
      forall balance: nat, steps
        ensures StaysWithinMax(cfg, balance, steps)
      {
        if cfg.rule.min == 0 {
          NeverAsks(cfg, Start(balance), steps);
        } else {
          RunKeepsWallet(cfg, Start(balance), steps, if balance < cfg.rule.max then cfg.rule.max else balance);
        }
      }
    } else if !cfg.calm {
      var steps := CreditWhileChecking(cfg);
    } else if !cfg.prompt {
      var steps := CreditTooLate(cfg);
    } else {
      var steps := TwoChecksAtOnce(cfg);
    }
  }
}
