/** The balance-checks flow: its ten checks, the refills they enqueue, and the review at the end. */
module BalanceChecksQueue {
  import opened Options
  import opened Units
  import opened Checks
  import opened RefillsQueue
  import TurboDedup

  const JOB_CHECK_RELAY_REGISTRY := "check-relay-registry"
  const JOB_CHECK_BUNDLER := "check-bundler"
  const JOB_CHECK_RELAY_REWARDS := "check-relay-rewards"
  const JOB_CHECK_STAKING_REWARDS := "check-staking-rewards"
  const JOB_CHECK_HODLER := "check-hodler"
  const JOB_CHECK_REWARDS_POOL := "check-rewards-pool"
  const JOB_CHECK_TURBO_DEPLOYER := "check-turbo-deployer"
  const JOB_CHECK_TURBO_OPERATOR_REGISTRY := "check-turbo-operator-registry"
  const JOB_CHECK_TURBO_RELAY_REWARDS := "check-turbo-relay-rewards"
  const JOB_CHECK_TURBO_STAKING_REWARDS := "check-turbo-staking-rewards"

  /** The children of CHECK_BALANCES_FLOW, all on the balance-checks queue. */
  const CHILDREN := [
    JOB_CHECK_RELAY_REWARDS, JOB_CHECK_STAKING_REWARDS, JOB_CHECK_RELAY_REGISTRY, JOB_CHECK_BUNDLER, JOB_CHECK_HODLER,
    JOB_CHECK_REWARDS_POOL, JOB_CHECK_TURBO_DEPLOYER, JOB_CHECK_TURBO_OPERATOR_REGISTRY, JOB_CHECK_TURBO_RELAY_REWARDS,
    JOB_CHECK_TURBO_STAKING_REWARDS]

  /** The ten kinds of readings, by the names they are stored under. */
  datatype Kind =
    | RelayRegistryOperatorAoBalance
    | RelayRewardsOperatorAoBalance
    | StakingRewardsOperatorAoBalance
    | BundlerOperatorArBalance
    | HodlerOperatorEth
    | RewardsPoolTokens
    | TurboDeployerCredits
    | TurboOperatorRegistryCredits
    | TurboRelayRewardsCredits
    | TurboStakingRewardsCredits

  datatype BalancesData = BalancesData(
    stamp: int, kind: Kind, amount: Value, requestAmount: Option<Value>, address: Option<string>)

  /** What one check meets: its reading (None: the check throws), the recent top-ups of its wallet
    * (None: the query fails) and their statuses (None: unreadable), and whether the refills queue
    * takes a job. */
  datatype Input = Input(
    reading: Option<Reading<Value>>, topUps: Option<seq<nat>>, statusOf: nat -> Option<TurboDedup.Status>,
    queueUp: bool)

  function KindOf(name: string): Option<Kind> {
    if name == JOB_CHECK_RELAY_REGISTRY then Some(RelayRegistryOperatorAoBalance)
    else if name == JOB_CHECK_RELAY_REWARDS then Some(RelayRewardsOperatorAoBalance)
    else if name == JOB_CHECK_STAKING_REWARDS then Some(StakingRewardsOperatorAoBalance)
    else if name == JOB_CHECK_BUNDLER then Some(BundlerOperatorArBalance)
    else if name == JOB_CHECK_HODLER then Some(HodlerOperatorEth)
    else if name == JOB_CHECK_REWARDS_POOL then Some(RewardsPoolTokens)
    else if name == JOB_CHECK_TURBO_DEPLOYER then Some(TurboDeployerCredits)
    else if name == JOB_CHECK_TURBO_OPERATOR_REGISTRY then Some(TurboOperatorRegistryCredits)
    else if name == JOB_CHECK_TURBO_RELAY_REWARDS then Some(TurboRelayRewardsCredits)
    else if name == JOB_CHECK_TURBO_STAKING_REWARDS then Some(TurboStakingRewardsCredits)
    else None
  }

  predicate IsTurbo(name: string) {
    name in {JOB_CHECK_TURBO_DEPLOYER, JOB_CHECK_TURBO_OPERATOR_REGISTRY,
             JOB_CHECK_TURBO_RELAY_REWARDS, JOB_CHECK_TURBO_STAKING_REWARDS}
  }

  /** A BigNumber is an object and always truthy; a bigint is falsy when it is zero. */
  predicate Truthy(v: Value) { v.Integer? ==> v.n != 0 }

  /** The reading asks for a refill of a wallet that it names. */
  predicate Asks(r: Reading<Value>) {
    r.requestAmount.Some? && Truthy(r.requestAmount.value) && !Missing(r.address)
  }

  /** Every recent top-up is known, and none is pending. */
  predicate NonePending(i: Input) {
    i.topUps.Some? && forall tx | tx in i.topUps.value ::
        i.statusOf(tx).Some? && i.statusOf(tx).value != TurboDedup.Pending
  }

  /** The check enqueues a refill when its wallet is one that gets refills and nothing is pending. */
  predicate Refills(name: string, i: Input) {
    && i.reading.Some? && Asks(i.reading.value)
    && (name == JOB_CHECK_BUNDLER || name == JOB_CHECK_REWARDS_POOL || (IsTurbo(name) && NonePending(i)))
  }

  /** The numbers a check computes: bigint for the rewards pool and the hodler, decimals elsewhere. */
  predicate WellTyped(name: string, i: Input) {
    i.reading.Some? && i.reading.value.requestAmount.Some? ==>
      if name == JOB_CHECK_REWARDS_POOL || name == JOB_CHECK_HODLER then i.reading.value.requestAmount.value.Integer?
      else i.reading.value.requestAmount.value.Decimal?
  }

  /** The send that a check's reading should lead to. */
  function Expected(name: string, r: Reading<Value>): Send
    requires Asks(r)
  {
    var to := Some(Text(r.address.value));
    if name == JOB_CHECK_BUNDLER then SendArTo(to, r.requestAmount)
    else if name == JOB_CHECK_REWARDS_POOL then SendTokensTo(to, r.requestAmount)
    else TopUpTurboCredits(to, r.requestAmount)
  }

  /** What a check adds to the refills queue. */
  function Enqueued(name: string, i: Input): seq<Job>
    requires WellTyped(name, i)
  {
    if !Refills(name, i) || !i.queueUp then []
    else
      var r := i.reading.value;
      if name == JOB_CHECK_BUNDLER then [RefillArJob(r.address.value, r.requestAmount.value.d)]
      else if name == JOB_CHECK_REWARDS_POOL then [RefillTokenJob(r.address.value, r.requestAmount.value.n)]
      else [RefillTurboJob(r.address.value, r.requestAmount.value.d)]
  }

  /** What a check returns: its reading, unless the check or the queue throws. */
  function Recorded(name: string, stamp: int, i: Input): seq<BalancesData> {
    if KindOf(name) == None || i.reading == None || (Refills(name, i) && !i.queueUp) then []
    else
      var r := i.reading.value;
      [BalancesData(stamp, KindOf(name).value, r.balance, r.requestAmount, r.address)]
  }

  /** A refill is enqueued exactly when the reading asks for it (and, for Turbo, none is pending):
    * one job, which the processor turns into the send with the reading's address and amount. */
  lemma EnqueuedIsDispatched(name: string, i: Input)
    requires WellTyped(name, i)
    ensures |Enqueued(name, i)| == if Refills(name, i) && i.queueUp then 1 else 0
    ensures forall job | job in Enqueued(name, i) :: Dispatch(job) == Expected(name, i.reading.value)
  {
  }

  /** A check enqueues something exactly when it got a reading, the reading asks for an amount that is
    * not zero tokens and names a wallet, the queue is up, and the wallet is one of the six that get
    * refills; for the four Turbo wallets, when moreover every recent top-up is known to be done. */
  lemma EnqueuesIff(name: string, i: Input)
    requires WellTyped(name, i)
    ensures Enqueued(name, i) != [] <==>
      && i.queueUp && i.reading.Some? && i.reading.value.requestAmount.Some?
      && i.reading.value.address.Some? && i.reading.value.address != Some("")
      && (|| name == "check-bundler"
          || (name == "check-rewards-pool" && i.reading.value.requestAmount != Some(Integer(0)))
          || (name in {"check-turbo-deployer", "check-turbo-operator-registry",
                       "check-turbo-relay-rewards", "check-turbo-staking-rewards"}
              && i.topUps.Some? && forall tx | tx in i.topUps.value ::
                   i.statusOf(tx).Some? && i.statusOf(tx).value != TurboDedup.Pending))
  {
  }

  /** What it then enqueues, as it stands in the queue. */
  lemma EnqueuedPayload(name: string, i: Input)
    requires WellTyped(name, i) && Enqueued(name, i) != []
    ensures var to, amount := Text(i.reading.value.address.value), i.reading.value.requestAmount.value;
      Enqueued(name, i) == [
        if name == "check-bundler" then Job("refill-ar", map["arReceiver" := to, "arAmount" := amount])
        else if name == "check-rewards-pool" then
          Job("refill-token", map["tokenReceiver" := to, "tokenAmount" := amount])
        else Job("refill-turbo-credits", map["turboAddress" := to, "creditAmount" := amount])]
  {
  }

  /** A check returns exactly what it read, under its wallet's kind and the flow's stamp, unless it
    * throws, the queue throws when it enqueues, or the name is unknown. */
  lemma RecordedIff(name: string, stamp: int, i: Input)
    requires WellTyped(name, i)
    ensures Recorded(name, stamp, i) == [] <==>
      || i.reading == None || name !in CHILDREN
      || (!i.queueUp && Enqueued(name, i.(queueUp := true)) != [])
    ensures Recorded(name, stamp, i) != [] ==>
      && |Recorded(name, stamp, i)| == 1
      && var r := Recorded(name, stamp, i)[0];
         && r.stamp == stamp && KindOf(name) == Some(r.kind) && r.amount == i.reading.value.balance
         && r.requestAmount == i.reading.value.requestAmount && r.address == i.reading.value.address
  {
    if name in CHILDREN {
      var k :| 0 <= k < |CHILDREN| && CHILDREN[k] == name;
      ChildIsKnown(k);
    } else if KindOf(name).Some? {
      OnlyChildrenAreKnown(name);
    }
  }

  lemma OnlyChildrenAreKnown(name: string)
    requires KindOf(name).Some?
    ensures name in CHILDREN
  {
    var k := PlaceOf(name);
    assert 0 <= k < 10;
    ChildAt(name);
  }

  lemma ChildAt(name: string)
    requires 0 <= PlaceOf(name) < 10
    ensures CHILDREN[PlaceOf(name)] == name
  {
  }

  /** Which check reads which wallet. */
  lemma KindsAre()
    ensures KindOf("check-relay-registry") == Some(RelayRegistryOperatorAoBalance)
    ensures KindOf("check-relay-rewards") == Some(RelayRewardsOperatorAoBalance)
    ensures KindOf("check-staking-rewards") == Some(StakingRewardsOperatorAoBalance)
    ensures KindOf("check-bundler") == Some(BundlerOperatorArBalance)
    ensures KindOf("check-hodler") == Some(HodlerOperatorEth)
    ensures KindOf("check-rewards-pool") == Some(RewardsPoolTokens)
    ensures KindOf("check-turbo-deployer") == Some(TurboDeployerCredits)
    ensures KindOf("check-turbo-operator-registry") == Some(TurboOperatorRegistryCredits)
    ensures KindOf("check-turbo-relay-rewards") == Some(TurboRelayRewardsCredits)
    ensures KindOf("check-turbo-staking-rewards") == Some(TurboStakingRewardsCredits)
  {
  }

  class Queue {
    var refillsQueue: seq<Job>

    constructor ()
      ensures refillsQueue == []
    {
      refillsQueue := [];
    }

    method RequestRefillAr(address: string, amount: real)
      modifies this
      ensures refillsQueue == old(refillsQueue) + [RefillArJob(address, amount)]
    {
      refillsQueue := refillsQueue + [RefillArJob(address, amount)];
    }

    method RequestRefillToken(address: string, amount: int)
      modifies this
      ensures refillsQueue == old(refillsQueue) + [RefillTokenJob(address, amount)]
    {
      refillsQueue := refillsQueue + [RefillTokenJob(address, amount)];
    }

    method RequestRefillTurboCredits(address: string, amount: real)
      modifies this
      ensures refillsQueue == old(refillsQueue) + [RefillTurboJob(address, amount)]
    {
      refillsQueue := refillsQueue + [RefillTurboJob(address, amount)];
    }

    /** One check job, wallet by wallet. */
    method ProcessCheck(name: string, stamp: int, i: Input) returns (records: seq<BalancesData>)
      requires WellTyped(name, i)
      modifies this
      ensures refillsQueue == old(refillsQueue) + Enqueued(name, i)
      ensures records == Recorded(name, stamp, i)
    {
      if KindOf(name) == None || i.reading == None {
        return [];
      }
      var Reading(balance, requestAmount, address) := i.reading.value;
      if name == JOB_CHECK_BUNDLER {
        if requestAmount.Some? && Truthy(requestAmount.value) && !Missing(address) {
          if !i.queueUp { return []; }
          RequestRefillAr(address.value, requestAmount.value.d);
        }
      } else if name == JOB_CHECK_REWARDS_POOL {
        if requestAmount.Some? && Truthy(requestAmount.value) && !Missing(address) {
          if !i.queueUp { return []; }
          RequestRefillToken(address.value, requestAmount.value.n);
        }
      } else if IsTurbo(name) {
        if requestAmount.Some? && Truthy(requestAmount.value) && !Missing(address) {
          var hasPending := TurboDedup.HasPendingTurboRefill(i.topUps, i.statusOf);
          if !hasPending {
            if !i.queueUp { return []; }
            RequestRefillTurboCredits(address.value, requestAmount.value.d);
          }
        }
      }
      records := [BalancesData(stamp, KindOf(name).value, balance, requestAmount, address)];
    }
  }

  // ----- Runs of checks

  predicate Typed(name: string, flows: seq<Input>) {
    forall k | 0 <= k < |flows| :: WellTyped(name, flows[k])
  }

  function EnqueuedBy(name: string, flows: seq<Input>): seq<Job>
    requires Typed(name, flows)
  {
    if flows == [] then [] else Enqueued(name, flows[0]) + EnqueuedBy(name, flows[1..])
  }

  /** The number in a send, whatever it sends. */
  function Amount(s: Send): real {
    if s.UnknownJob? || s.amount == None then 0.0
    else match s.amount.value
      case Decimal(d) => d
      case Integer(n) => n as real
      case Text(_) => 0.0
  }

  function Amounts(jobs: seq<Job>): (amounts: seq<real>)
    ensures |amounts| == |jobs| && forall k | 0 <= k < |jobs| :: amounts[k] == Amount(Dispatch(jobs[k]))
  {
    if jobs == [] then [] else [Amount(Dispatch(jobs[0]))] + Amounts(jobs[1..])
  }

  /** A reading of a wallet with thresholds min <= max: it asks for nothing, or for something
    * positive that completes the balance to max. */
  predicate BoundedReading(r: Reading<Value>, max: real) {
    r.requestAmount.Some? ==>
      match (r.balance, r.requestAmount.value)
      case (Decimal(b), Decimal(a)) => 0.0 < a <= max && b + a == max
      case (Integer(b), Integer(a)) => 0.0 < a as real <= max && (b + a) as real == max
      case _ => false
  }

  function AsDecimals(r: Reading<real>): Reading<Value> {
    var asked := if r.requestAmount == None then None else Some(Decimal(r.requestAmount.value));
    Reading(Decimal(r.balance), asked, r.address)
  }

  function AsIntegers(r: Reading<int>): Reading<Value> {
    var asked := if r.requestAmount == None then None else Some(Integer(r.requestAmount.value));
    Reading(Integer(r.balance), asked, r.address)
  }

  /** The checks with min <= max give bounded readings, and failed fetches ask for nothing. */
  lemma CheckReadingsAreBounded(address: Option<string>, min: real, max: real, lo: nat, hi: nat, fetched: Option<nat>)
    requires min <= max && lo <= hi
    ensures BoundedReading(AsDecimals(CheckCredits(address, Some(min), Some(max), fetched)), max)
    ensures BoundedReading(AsDecimals(OperatorBalance(address, min, max, fetched)), max)
    ensures BoundedReading(AsIntegers(HodlerCheck(address, lo, hi, fetched)), hi as real)
    ensures fetched == None ==>
      && CheckCredits(address, Some(min), Some(max), None).requestAmount == None
      && OperatorBalance(address, min, max, None).requestAmount == None
      && HodlerCheck(address, lo, hi, None).requestAmount == None
  {
    if fetched.Some? {
      WincIsExact(fetched.value);
      assert fetched.value as real / UNIT >= 0.0;
    }
  }

  predicate Bounded(flows: seq<Input>, max: real) {
    forall k | 0 <= k < |flows| :: flows[k].reading.Some? ==> BoundedReading(flows[k].reading.value, max)
  }

  /** The job leads to the send that its check is for, with an amount up to max. */
  predicate Fits(name: string, job: Job, max: real) {
    var send := Dispatch(job);
    && 0.0 < Amount(send) <= max
    && !send.SendEthTo? && !send.SendAoTo?
    && if name == JOB_CHECK_BUNDLER then send.SendArTo?
       else if name == JOB_CHECK_REWARDS_POOL then send.SendTokensTo?
       else IsTurbo(name) && send.TopUpTurboCredits?
  }

  predicate AllFits(name: string, jobs: seq<Job>, max: real) {
    forall k | 0 <= k < |jobs| :: Fits(name, jobs[k], max)
  }

  lemma EnqueuedFits(name: string, i: Input, max: real)
    requires WellTyped(name, i) && (i.reading.Some? ==> BoundedReading(i.reading.value, max))
    ensures |Enqueued(name, i)| <= 1 && AllFits(name, Enqueued(name, i), max)
  {
  }

  /** A sum of amounts up to max, one for each job: kept apart from the jobs' payloads. */
  function Sum(amounts: seq<real>): real {
    if amounts == [] then 0.0 else amounts[0] + Sum(amounts[1..])
  }

  lemma SumAppend(xs: seq<real>, ys: seq<real>)
    ensures Sum(xs + ys) == Sum(xs) + Sum(ys)
  {
    if xs == [] {
      assert xs + ys == ys;
    } else {
      assert (xs + ys)[1..] == xs[1..] + ys;
      SumAppend(xs[1..], ys);
    }
  }

  /** Every job that the flows enqueue for a wallet leads to a send of the right sort, never ETH and
    * never AO, with a positive amount up to max; and each flow enqueues at most one. */
  lemma {:induction false} SendsAreOfTheRightSort(name: string, flows: seq<Input>, max: real)
    requires Typed(name, flows) && Bounded(flows, max)
    ensures |EnqueuedBy(name, flows)| <= |flows| && AllFits(name, EnqueuedBy(name, flows), max)
    decreases |flows|
  {
    if flows != [] {
      SendsAreOfTheRightSort(name, flows[1..], max);
      EnqueuedFits(name, flows[0], max);
    }
  }

  lemma OneFlowSpends(name: string, i: Input, max: real)
    requires max >= 0.0 && WellTyped(name, i) && (i.reading.Some? ==> BoundedReading(i.reading.value, max))
    ensures Sum(Amounts(Enqueued(name, i))) <= max && |Enqueued(name, i)| <= 1
  {
    var amounts := Amounts(Enqueued(name, i));
    EnqueuedFits(name, i, max);
    if amounts != [] {
      assert Fits(name, Enqueued(name, i)[0], max);
      assert amounts[1..] == [];
    }
  }

  /** n times x, as a sum; TimesIsProduct says that it is the product. */
  function Times(n: nat, x: real): real {
    if n == 0 then 0.0 else Times(n - 1, x) + x
  }

  lemma TimesIsProduct(n: nat, x: real)
    ensures Times(n, x) == n as real * x
  {
    if n > 0 {
      TimesIsProduct(n - 1, x);
      assert n as real == (n - 1) as real + 1.0;
    }
  }

  /** Spending follows the readings: n flows make the refills queue send a wallet at most n times
    * its max, in at most n sends. */
  lemma {:induction false} SpendFollowsReadings(name: string, flows: seq<Input>, max: real)
    requires max >= 0.0 && Typed(name, flows) && Bounded(flows, max)
    ensures |EnqueuedBy(name, flows)| <= |flows|
    ensures Sum(Amounts(EnqueuedBy(name, flows))) <= Times(|flows|, max)
    decreases |flows|
  {
    if flows != [] {
      var first, rest := Enqueued(name, flows[0]), EnqueuedBy(name, flows[1..]);
      SpendFollowsReadings(name, flows[1..], max);
      OneFlowSpends(name, flows[0], max);
      SumAppend(Amounts(first), Amounts(rest));
      assert Amounts(first + rest) == Amounts(first) + Amounts(rest);
    }
  }

  // ----- The review

  /** Object.values(children).reduce((prev, curr) => curr.concat(prev), []). */
  function Reduce(blocks: seq<seq<BalancesData>>, prev: seq<BalancesData>): seq<BalancesData> {
    if blocks == [] then prev else Reduce(blocks[1..], blocks[0] + prev)
  }

  function Review(blocks: seq<seq<BalancesData>>): seq<BalancesData> { Reduce(blocks, []) }

  function Reversed<T>(s: seq<T>): seq<T> {
    if s == [] then [] else Reversed(s[1..]) + [s[0]]
  }

  function Flatten<T>(ss: seq<seq<T>>): seq<T> {
    if ss == [] then [] else ss[0] + Flatten(ss[1..])
  }

  lemma FlattenSnoc<T>(ss: seq<seq<T>>, s: seq<T>)
    ensures Flatten(ss + [s]) == Flatten(ss) + s
  {
    if ss == [] {
      assert [] + [s] == [s] && [s][1..] == [];
    } else {
      assert (ss + [s])[1..] == ss[1..] + [s];
      FlattenSnoc(ss[1..], s);
    }
  }

  lemma {:induction false} ReduceReverses(blocks: seq<seq<BalancesData>>, prev: seq<BalancesData>)
    ensures Reduce(blocks, prev) == Flatten(Reversed(blocks)) + prev
    ensures multiset(Reduce(blocks, prev)) == multiset(Flatten(blocks)) + multiset(prev)
    decreases |blocks|
  {
    if blocks != [] {
      ReduceReverses(blocks[1..], blocks[0] + prev);
      FlattenSnoc(Reversed(blocks[1..]), blocks[0]);
    }
  }

  /** The review loses and invents nothing: it stores the children's blocks in reverse order. */
  lemma ReviewKeepsAll(blocks: seq<seq<BalancesData>>)
    ensures Review(blocks) == Flatten(Reversed(blocks))
    ensures multiset(Review(blocks)) == multiset(Flatten(blocks))
  {
    ReduceReverses(blocks, []);
  }

  /** The place of a check among the children. */
  function PlaceOf(name: string): int {
    if name == JOB_CHECK_RELAY_REWARDS then 0
    else if name == JOB_CHECK_STAKING_REWARDS then 1
    else if name == JOB_CHECK_RELAY_REGISTRY then 2
    else if name == JOB_CHECK_BUNDLER then 3
    else if name == JOB_CHECK_HODLER then 4
    else if name == JOB_CHECK_REWARDS_POOL then 5
    else if name == JOB_CHECK_TURBO_DEPLOYER then 6
    else if name == JOB_CHECK_TURBO_OPERATOR_REGISTRY then 7
    else if name == JOB_CHECK_TURBO_RELAY_REWARDS then 8
    else if name == JOB_CHECK_TURBO_STAKING_REWARDS then 9
    else -1
  }

  lemma SameKindSameName(m: string, n: string)
    requires KindOf(m).Some? && KindOf(m) == KindOf(n)
    ensures m == n
  {
  }

  lemma ChildIsKnown(k: nat)
    requires k < |CHILDREN|
    ensures PlaceOf(CHILDREN[k]) == k && KindOf(CHILDREN[k]).Some?
  {
  }

  /** Every child has a branch of its own, and no two have the same kind. */
  lemma ChildrenHaveOwnKinds()
    ensures |CHILDREN| == 10
    ensures forall k | 0 <= k < |CHILDREN| :: KindOf(CHILDREN[k]).Some?
    ensures forall k, l | 0 <= k < l < |CHILDREN| :: KindOf(CHILDREN[k]) != KindOf(CHILDREN[l])
  {
    forall k | 0 <= k < |CHILDREN|
      ensures KindOf(CHILDREN[k]).Some? && PlaceOf(CHILDREN[k]) == k
    {
      ChildIsKnown(k);
    }
    forall k, l | 0 <= k < l < |CHILDREN|
      ensures KindOf(CHILDREN[k]) != KindOf(CHILDREN[l])
    {
      if KindOf(CHILDREN[k]) == KindOf(CHILDREN[l]) { SameKindSameName(CHILDREN[k], CHILDREN[l]); }
    }
  }

  ghost predicate OwnKinds(rs: seq<BalancesData>, stamp: int) {
    && (forall k | 0 <= k < |rs| :: rs[k].stamp == stamp)
    && forall k, l | 0 <= k < l < |rs| :: rs[k].kind != rs[l].kind
  }

  /** The children's blocks, in the order in which they are handed to the review. */
  function Blocks(names: seq<string>, stamp: int, inputs: seq<Input>): (r: seq<seq<BalancesData>>)
    requires |names| == |inputs|
    ensures |r| == |names|
  {
    if names == [] then [] else [Recorded(names[0], stamp, inputs[0])] + Blocks(names[1..], stamp, inputs[1..])
  }

  lemma {:induction false} ReduceOwnKinds(names: seq<string>, stamp: int, inputs: seq<Input>, prev: seq<BalancesData>)
    requires |names| == |inputs| && (forall k, l | 0 <= k < l < |names| :: names[k] != names[l])
    requires OwnKinds(prev, stamp)
    requires forall k, l | 0 <= k < |names| && 0 <= l < |prev| :: KindOf(names[k]) != Some(prev[l].kind)
    ensures var r := Reduce(Blocks(names, stamp, inputs), prev); OwnKinds(r, stamp) && |r| <= |prev| + |names|
    decreases |names|
  {
    if names != [] {
      var block := Recorded(names[0], stamp, inputs[0]);
      var next := block + prev;
      assert Blocks(names, stamp, inputs)[1..] == Blocks(names[1..], stamp, inputs[1..]);
      forall k, l | 0 <= k < |names[1..]| && 0 <= l < |next|
        ensures KindOf(names[1..][k]) != Some(next[l].kind)
      {
        if l < |block| && KindOf(names[k + 1]) == KindOf(names[0]) {
          SameKindSameName(names[k + 1], names[0]);
        }
      }
      ReduceOwnKinds(names[1..], stamp, inputs[1..], next);
    }
  }

  /** Whatever the ten checks met and in whatever order their results arrive, the review stores at
    * most one reading of each kind, all with the flow's stamp. */
  lemma ReviewStoresOneOfAKind(names: seq<string>, stamp: int, inputs: seq<Input>)
    requires |names| == |inputs| && multiset(names) == multiset(CHILDREN)
    ensures OwnKinds(Review(Blocks(names, stamp, inputs)), stamp)
  {
    forall k, l | 0 <= k < l < |names|
      ensures names[k] != names[l]
    {
      if names[k] == names[l] {
        TwiceCounts(names, k, l);
        ChildrenOnce(names[k]);
        assert false;
      }
    }
    ReduceOwnKinds(names, stamp, inputs, []);
  }

  lemma TwiceCounts(names: seq<string>, k: nat, l: nat)
    requires k < l < |names| && names[k] == names[l]
    ensures multiset(names)[names[k]] >= 2
  {
    assert names == names[..l] + [names[l]] + names[l + 1..];
    assert names[k] in names[..l];
  }

  lemma ChildrenOnce(name: string)
    ensures multiset(CHILDREN)[name] <= 1
  {
  }
}
