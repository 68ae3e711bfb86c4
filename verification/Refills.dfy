/** RefillsService: the sends, and what a run of them does to the spenders. */
module Refills {
  import opened Options
  import opened Units

  datatype Payment =
    | SentAr(to: string, winston: int)
    | ToppedUp(to: string, winston: int)
    | SentTokens(to: string, amount: int)

  /** The spenders' balances and every payment the networks accepted, oldest first. */
  datatype Ledger = Ledger(arSpender: int, tokenSpender: int, payments: seq<Payment>)

  /** What happens to one refill outside the code: the balance that the gateway reports for the AR
    * spender and the winston that Turbo quotes (None: the read fails), whether the network carries
    * the transaction out if it can, and whether a confirmation comes back to the caller. */
  datatype Answer = Answer(arShown: Option<nat>, quote: Option<nat>, carriedOut: bool, confirmed: bool)

  datatype Request =
    | Ar(to: string, amount: real)
    | Turbo(to: string, credits: real)
    | Token(to: string, tokens: nat)

  predicate Live(isLive: Option<string>) { isLive == Some("true") }

  function Pay(l: Ledger, p: Payment): Ledger {
    var paid := l.(payments := l.payments + [p]);
    if p.SentTokens? then paid.(tokenSpender := l.tokenSpender - p.amount)
    else paid.(arSpender := l.arSpender - p.winston)
  }

  /** The payment that a request asks the network for. */
  function PaymentFor(r: Request, a: Answer): Payment {
    match r
    case Ar(to, amount) => SentAr(to, ArToWinston(amount).Floor)
    case Turbo(to, _) => ToppedUp(to, if a.quote.Some? then a.quote.value else 0)
    case Token(to, tokens) => SentTokens(to, tokens)
  }

  /** The gateway takes only whole, non-negative quantities. */
  predicate WellFormed(r: Request) {
    r.Ar? ==> Whole(ArToWinston(r.amount)) && r.amount >= 0.0
  }

  /** The code submits a transaction: the service is live and its own checks pass. */
  predicate Posts(isLive: Option<string>, r: Request, a: Answer) {
    && Live(isLive)
    && match r
       case Ar(_, amount) => a.arShown.Some? && WinstonToAr(a.arShown.value) >= amount
       case Turbo(_, _) =>
         a.arShown.Some? && a.quote.Some? && WinstonToAr(a.arShown.value) >= WinstonToAr(a.quote.value)
       case Token(_, _) => true
  }

  /** What the spender really has covers the payment. */
  predicate Covered(l: Ledger, p: Payment) {
    if p.SentTokens? then p.amount <= l.tokenSpender else p.winston <= l.arSpender
  }

  /** The funds move. */
  predicate Moves(isLive: Option<string>, l: Ledger, r: Request, a: Answer) {
    Posts(isLive, r, a) && WellFormed(r) && a.carriedOut && Covered(l, PaymentFor(r, a))
  }

  /** The send returns true. A post and a top-up are confirmed when they are taken in, before they
    * are mined; a transfer only once it has been. */
  predicate Reports(isLive: Option<string>, l: Ledger, r: Request, a: Answer) {
    || !Live(isLive)
    || (a.confirmed && if r.Token? then Moves(isLive, l, r, a) else Posts(isLive, r, a) && WellFormed(r))
  }

  function Execute(isLive: Option<string>, l: Ledger, r: Request, a: Answer): (Ledger, bool) {
    (if Moves(isLive, l, r, a) then Pay(l, PaymentFor(r, a)) else l, Reports(isLive, l, r, a))
  }

  class Service {
    const isLive: Option<string>
    var ledger: Ledger  // what the networks hold for the spenders

    constructor (isLive: Option<string>, ledger: Ledger)
      ensures this.isLive == isLive && this.ledger == ledger
    {
      this.isLive, this.ledger := isLive, ledger;
    }

    method SendArTo(address: string, amount: real, a: Answer) returns (outcome: bool)
      modifies this`ledger
      ensures (ledger, outcome) == Execute(isLive, old(ledger), Ar(address, amount), a)
      ensures isLive != Some("true") || a.arShown == None ==> outcome == (isLive != Some("true"))
      ensures isLive == Some("true") && a.arShown.Some? ==>
        (outcome <==> && a.confirmed && amount >= 0.0 && Whole(amount * UNIT)
                      && amount * UNIT <= a.arShown.value as real)
      ensures isLive == Some("true") && a.arShown.Some? && a.arShown.value <= old(ledger).arSpender && a.carriedOut
              && amount >= 0.0 && Whole(amount * UNIT) && amount * UNIT <= a.arShown.value as real ==>
        && ledger.payments == old(ledger).payments + [SentAr(address, (amount * UNIT).Floor)]
        && ledger.arSpender == old(ledger).arSpender - (amount * UNIT).Floor
    {
      if !Live(isLive) {
        return true;
      }
      if a.arShown.None? {
        return false;
      }
      var arSpenderBalance := WinstonToAr(a.arShown.value);
      if arSpenderBalance < amount {
        return false;
      }
      var quantity := ArToWinston(amount);
      if !Whole(quantity) || quantity < 0.0 {
        return false;
      }
      var _ := Submit(SentAr(address, quantity.Floor), a.carriedOut);
      return a.confirmed;
    }

    method TopUpTurboCredits(address: string, credits: real, a: Answer) returns (outcome: bool)
      modifies this`ledger
      ensures (ledger, outcome) == Execute(isLive, old(ledger), Turbo(address, credits), a)
      ensures isLive != Some("true") || a.arShown == None || a.quote == None ==> outcome == (isLive != Some("true"))
      ensures isLive == Some("true") && a.arShown.Some? && a.quote.Some? ==>
        (outcome <==> a.confirmed && a.quote.value <= a.arShown.value)
      ensures isLive == Some("true") && a.arShown.Some? && a.arShown.value <= old(ledger).arSpender && a.carriedOut
              && a.quote.Some? && a.quote.value <= a.arShown.value ==>
        && ledger.payments == old(ledger).payments + [ToppedUp(address, a.quote.value)]
        && ledger.arSpender == old(ledger).arSpender - a.quote.value
    {
      if !Live(isLive) {
        return true;
      }
      if a.arShown.None? || a.quote.None? {
        return false;
      }
      var arSpenderBalance := WinstonToAr(a.arShown.value);
      var actualTokenAmount := a.quote.value;  // Turbo's price for CreditsToWinc(credits) winc
      if arSpenderBalance < WinstonToAr(actualTokenAmount) {
        return false;
      }
      var _ := Submit(ToppedUp(address, actualTokenAmount), a.carriedOut);
      return a.confirmed;
    }

    method SendTokensTo(address: string, amount: nat, a: Answer) returns (outcome: bool)
      modifies this`ledger
      ensures (ledger, outcome) == Execute(isLive, old(ledger), Token(address, amount), a)
      ensures isLive == Some("true") ==>
        (outcome <==> a.carriedOut && a.confirmed && amount <= old(ledger).tokenSpender)
      ensures isLive == Some("true") && a.carriedOut && amount <= old(ledger).tokenSpender ==>
        && ledger.payments == old(ledger).payments + [SentTokens(address, amount)]
        && ledger.tokenSpender == old(ledger).tokenSpender - amount
    {
      if !Live(isLive) {
        return true;
      }
      var mined := Submit(SentTokens(address, amount), a.carriedOut);
      return mined && a.confirmed;
    }

    /** The networks: a transaction that the spender's balance covers may be carried out. */
    method Submit(p: Payment, carriedOut: bool) returns (mined: bool)
      modifies this`ledger
      ensures mined == (carriedOut && Covered(old(ledger), p))
      ensures ledger == if mined then Pay(old(ledger), p) else old(ledger)
    {
      mined := carriedOut && Covered(ledger, p);
      if mined {
        ledger := Pay(ledger, p);
      }
    }
  }

  // ----- Runs

  type Job = (Request, Answer)

  function RunAll(isLive: Option<string>, l: Ledger, jobs: seq<Job>): Ledger
    decreases |jobs|
  {
    if jobs == [] then l else RunAll(isLive, Execute(isLive, l, jobs[0].0, jobs[0].1).0, jobs[1..])
  }

  /** A payment that was carried out, and one whose send reported success. */
  datatype Fate = Fate(payment: Payment, moved: bool, reported: bool)

  function FateOf(isLive: Option<string>, l: Ledger, job: Job): Fate {
    Fate(PaymentFor(job.0, job.1), Moves(isLive, l, job.0, job.1), Reports(isLive, l, job.0, job.1))
  }

  /** What becomes of each job, in order. */
  function Fates(isLive: Option<string>, l: Ledger, jobs: seq<Job>): seq<Fate>
    decreases |jobs|
  {
    if jobs == [] then []
    else
      [FateOf(isLive, l, jobs[0])] + Fates(isLive, Execute(isLive, l, jobs[0].0, jobs[0].1).0, jobs[1..])
  }

  function Paid(fates: seq<Fate>): seq<Payment> {
    if fates == [] then [] else (if fates[0].moved then [fates[0].payment] else []) + Paid(fates[1..])
  }

  function Reported(fates: seq<Fate>): seq<Payment> {
    if fates == [] then [] else (if fates[0].reported then [fates[0].payment] else []) + Reported(fates[1..])
  }

  /** Carried out, though the send returned false. */
  predicate Lost(fate: Fate) { fate.moved && !fate.reported }

  /** Reported as done, though never carried out. */
  predicate Phantom(fate: Fate) { fate.reported && !fate.moved }

  function ArTotal(ps: seq<Payment>): int {
    if ps == [] then 0 else (if ps[0].SentTokens? then 0 else ps[0].winston) + ArTotal(ps[1..])
  }

  function TokenTotal(ps: seq<Payment>): int {
    if ps == [] then 0 else (if ps[0].SentTokens? then ps[0].amount else 0) + TokenTotal(ps[1..])
  }

  lemma CoveredInWinston(balance: int, ar: real, winston: int)
    requires balance as real / UNIT >= ar && ar * UNIT == winston as real
    ensures balance >= winston
  {
    assert balance as real == balance as real / UNIT * UNIT;
  }

  lemma WholeWinston(amount: real)
    requires Whole(ArToWinston(amount)) && amount >= 0.0
    ensures ArToWinston(amount) == ArToWinston(amount).Floor as real && ArToWinston(amount).Floor >= 0
  {
  }

  /** A payment that the code posts is no more than the balance the gateway showed. */
  lemma PostIsWithinShown(isLive: Option<string>, r: Request, a: Answer)
    requires Posts(isLive, r, a) && WellFormed(r) && !r.Token?
    ensures 0 <= PaymentFor(r, a).winston <= a.arShown.value
    ensures r.Ar? ==> PaymentFor(r, a).winston as real == ArToWinston(r.amount)
  {
    match r
    case Ar(_, amount) =>
      WholeWinston(amount);
      CoveredInWinston(a.arShown.value, amount, ArToWinston(amount).Floor);
    case Turbo(_, _) => CoveredInWinston(a.arShown.value, WinstonToAr(a.quote.value), a.quote.value);
  }

  ghost predicate EveryPostIsCovered(isLive: Option<string>, l: Ledger, shown: nat) {
    forall r, a | Posts(isLive, r, a) && WellFormed(r) && !r.Token? && a.arShown == Some(shown) ::
      Covered(l, PaymentFor(r, a))
  }

  /** The code's own check covers everything it posts exactly when the gateway reports no more than
    * the spender has; how that fails is the subject of RefillRace. */
  lemma CheckCoversIff(isLive: Option<string>, l: Ledger, shown: nat)
    requires Live(isLive)
    ensures EveryPostIsCovered(isLive, l, shown) <==> shown <= l.arSpender
  {
    if shown <= l.arSpender {
      forall r, a | Posts(isLive, r, a) && WellFormed(r) && !r.Token? && a.arShown == Some(shown)
        ensures Covered(l, PaymentFor(r, a))
      {
        PostIsWithinShown(isLive, r, a);
      }
    } else {
      var r, a := Turbo("", 1.0), Answer(Some(shown), Some(shown), true, true);
      assert Posts(isLive, r, a) && !Covered(l, PaymentFor(r, a));
    }
  }

  ghost predicate Solvent(l: Ledger) { l.arSpender >= 0 && l.tokenSpender >= 0 }

  lemma StepStaysSolvent(isLive: Option<string>, l: Ledger, r: Request, a: Answer)
    requires Solvent(l)
    ensures Solvent(Execute(isLive, l, r, a).0)
  {
  }

  lemma PayThenRest(l: Ledger, p: Payment, rest: seq<Payment>)
    ensures Pay(l, p).payments + rest == l.payments + ([p] + rest)
    ensures Pay(l, p).arSpender - ArTotal(rest) == l.arSpender - ArTotal([p] + rest)
    ensures Pay(l, p).tokenSpender - TokenTotal(rest) == l.tokenSpender - TokenTotal([p] + rest)
  {
    assert ([p] + rest)[1..] == rest;
  }

  /** Any mix of sends and top-ups, whatever balances the gateway shows and whatever becomes of the
    * replies: the spenders lose exactly the payments carried out, in order, and none is overdrawn.
    * Network fees are not counted. */
  lemma {:induction false} LiveLedger(isLive: Option<string>, l: Ledger, jobs: seq<Job>)
    requires Solvent(l)
    ensures var l', paid := RunAll(isLive, l, jobs), Paid(Fates(isLive, l, jobs));
      && l'.payments == l.payments + paid
      && l'.arSpender + ArTotal(paid) == l.arSpender
      && l'.tokenSpender + TokenTotal(paid) == l.tokenSpender
      && Solvent(l')
    decreases |jobs|
  {
    if jobs != [] {
      var (r, a) := jobs[0];
      var l1 := Execute(isLive, l, r, a).0;
      StepStaysSolvent(isLive, l, r, a);
      LiveLedger(isLive, l1, jobs[1..]);
      var rest := Fates(isLive, l1, jobs[1..]);
      assert Fates(isLive, l, jobs)[1..] == rest;
      if Moves(isLive, l, r, a) {
        PayThenRest(l, PaymentFor(r, a), Paid(rest));
      } else {
        assert [] + Paid(rest) == Paid(rest);
      }
    }
  }

  /** What the network may do: lose the confirmation of a payment, confirm a payment and never carry
    * it out, and show more than the spender has. */
  datatype Network = Network(loses: bool, drops: bool, stale: bool)

  predicate MayAnswer(net: Network, l: Ledger, a: Answer) {
    && (a.carriedOut && !a.confirmed ==> net.loses)
    && (a.confirmed && !a.carriedOut ==> net.drops)
    && (a.arShown.Some? && a.arShown.value > l.arSpender ==> net.stale)
  }

  /** Every answer is one that the network may give at that job's turn. */
  predicate MayAnswerAll(net: Network, isLive: Option<string>, l: Ledger, jobs: seq<Job>)
    decreases |jobs|
  {
    jobs != [] ==>
      && MayAnswer(net, l, jobs[0].1)
      && MayAnswerAll(net, isLive, Execute(isLive, l, jobs[0].0, jobs[0].1).0, jobs[1..])
  }

  ghost predicate ReportedIsPaid(net: Network, isLive: Option<string>, l: Ledger, jobs: seq<Job>) {
    Solvent(l) && MayAnswerAll(net, isLive, l, jobs)
    ==> RunAll(isLive, l, jobs).payments == l.payments + Reported(Fates(isLive, l, jobs))
  }

  /** A send whose answer is neither lost nor dropped, and whose own check read a true balance. */
  lemma FaithfulAnswer(isLive: Option<string>, l: Ledger, r: Request, a: Answer)
    requires Live(isLive) && MayAnswer(Network(false, false, false), l, a)
    ensures Moves(isLive, l, r, a) <==> Reports(isLive, l, r, a)
  {
    if Posts(isLive, r, a) && WellFormed(r) && !r.Token? {
      PostIsWithinShown(isLive, r, a);
    }
  }

  lemma {:induction false} FaithfulNetwork(isLive: Option<string>, l: Ledger, jobs: seq<Job>)
    requires Live(isLive) && MayAnswerAll(Network(false, false, false), isLive, l, jobs)
    ensures Paid(Fates(isLive, l, jobs)) == Reported(Fates(isLive, l, jobs))
    decreases |jobs|
  {
    if jobs != [] {
      var l1 := Execute(isLive, l, jobs[0].0, jobs[0].1).0;
      FaithfulAnswer(isLive, l, jobs[0].0, jobs[0].1);
      FaithfulNetwork(isLive, l1, jobs[1..]);
      assert Fates(isLive, l, jobs)[1..] == Fates(isLive, l1, jobs[1..]);
    }
  }

  lemma RunOne(isLive: Option<string>, l: Ledger, x: Job)
    ensures RunAll(isLive, l, [x]) == Execute(isLive, l, x.0, x.1).0
    ensures Fates(isLive, l, [x]) == [FateOf(isLive, l, x)]
  {
    assert [x][1..] == [];
  }

  /** One top-up is enough to tell the two apart. */
  lemma UnfaithfulNetwork(net: Network, isLive: Option<string>) returns (l: Ledger, jobs: seq<Job>)
    requires Live(isLive) && net != Network(false, false, false)
    ensures !ReportedIsPaid(net, isLive, l, jobs)
  {
    l := Ledger(if net.loses || net.drops then 1 else 0, 0, []);
    var a := Answer(Some(1), Some(1), net.loses || !net.drops, !net.loses);
    var job: Job := (Turbo("", 1.0), a);
    jobs := [job];
    RunOne(isLive, l, job);
    assert MayAnswerAll(net, isLive, l, jobs) by { assert jobs[1..] == []; }
    assert Posts(isLive, job.0, a);
    OneReported(FateOf(isLive, l, job));
  }

  lemma OneReported(fate: Fate)
    ensures Reported([fate]) == if fate.reported then [fate.payment] else []
  {
    assert [fate][1..] == [];
  }

  /** On a live service the spenders pay what the sends report, in all runs, exactly when the network
    * loses no confirmation, drops nothing that it has confirmed, and shows no more than there is. */
  lemma ReportedIsPaidIff(net: Network, isLive: Option<string>)
    requires Live(isLive)
    ensures (forall l, jobs :: ReportedIsPaid(net, isLive, l, jobs)) <==> !net.loses && !net.drops && !net.stale
  {
    if !net.loses && !net.drops && !net.stale {
      forall l, jobs
        ensures ReportedIsPaid(net, isLive, l, jobs)
      {
        if Solvent(l) && MayAnswerAll(net, isLive, l, jobs) {
          LiveLedger(isLive, l, jobs);
          FaithfulNetwork(isLive, l, jobs);
        }
      }
    } else {
      var l, jobs := UnfaithfulNetwork(net, isLive);
    }
  }

  // ----- Is the code's own check enough?

  /** The ledger if the AR network did not refuse what the spender cannot cover; the token contract
    * always does. */
  function PayPosted(isLive: Option<string>, l: Ledger, r: Request, a: Answer): Ledger {
    if Posts(isLive, r, a) && WellFormed(r) && a.carriedOut && (r.Token? ==> Covered(l, PaymentFor(r, a)))
    then Pay(l, PaymentFor(r, a))
    else l
  }

  function PayAllPosted(isLive: Option<string>, l: Ledger, jobs: seq<Job>): Ledger
    decreases |jobs|
  {
    if jobs == [] then l else PayAllPosted(isLive, PayPosted(isLive, l, jobs[0].0, jobs[0].1), jobs[1..])
  }

  /** At each job's turn the gateway shows no more than the spender has, unless it may be stale. */
  predicate ShowsAll(stale: bool, isLive: Option<string>, l: Ledger, jobs: seq<Job>)
    decreases |jobs|
  {
    jobs != [] ==>
      && (jobs[0].1.arShown.Some? && jobs[0].1.arShown.value > l.arSpender ==> stale)
      && ShowsAll(stale, isLive, PayPosted(isLive, l, jobs[0].0, jobs[0].1), jobs[1..])
  }

  ghost predicate NeverOverdrawn(stale: bool, isLive: Option<string>, l: Ledger, jobs: seq<Job>) {
    Solvent(l) && ShowsAll(stale, isLive, l, jobs) ==> Solvent(PayAllPosted(isLive, l, jobs))
  }

  /** Where the balance shown is true the network has nothing to refuse: the two ledgers are the same
    * over whole runs. */
  lemma {:induction false} RefusalIsIdle(isLive: Option<string>, l: Ledger, jobs: seq<Job>)
    requires ShowsAll(false, isLive, l, jobs)
    ensures PayAllPosted(isLive, l, jobs) == RunAll(isLive, l, jobs)
    ensures MayAnswerAll(Network(true, true, false), isLive, l, jobs)
    decreases |jobs|
  {
    if jobs != [] {
      var (r, a) := jobs[0];
      if Posts(isLive, r, a) && WellFormed(r) && !r.Token? {
        PostIsWithinShown(isLive, r, a);
      }
      RefusalIsIdle(isLive, PayPosted(isLive, l, r, a), jobs[1..]);
    }
  }

  lemma {:induction false} TrueBalancesAreShown(isLive: Option<string>, l: Ledger, jobs: seq<Job>)
    requires MayAnswerAll(Network(true, true, false), isLive, l, jobs)
    ensures ShowsAll(false, isLive, l, jobs)
    decreases |jobs|
  {
    if jobs != [] {
      var (r, a) := jobs[0];
      if Posts(isLive, r, a) && WellFormed(r) && !r.Token? {
        PostIsWithinShown(isLive, r, a);
      }
      TrueBalancesAreShown(isLive, Execute(isLive, l, r, a).0, jobs[1..]);
    }
  }

  lemma {:induction false} OwnCheckCovers(isLive: Option<string>, l: Ledger, jobs: seq<Job>)
    requires Solvent(l) && ShowsAll(false, isLive, l, jobs)
    ensures Solvent(PayAllPosted(isLive, l, jobs))
    decreases |jobs|
  {
    if jobs != [] {
      var (r, a) := jobs[0];
      if Posts(isLive, r, a) && WellFormed(r) && !r.Token? {
        PostIsWithinShown(isLive, r, a);
      }
      OwnCheckCovers(isLive, PayPosted(isLive, l, r, a), jobs[1..]);
    }
  }

  /** Over whole runs on a network that carries out whatever is posted, the balance check alone keeps
    * the AR spender from being overdrawn exactly when the gateway never shows more than there is. */
  lemma OwnCheckSufficesIff(stale: bool, isLive: Option<string>)
    requires Live(isLive)
    ensures (forall l, jobs :: NeverOverdrawn(stale, isLive, l, jobs)) <==> !stale
  {
    if stale {
      var l, a := Ledger(0, 0, []), Answer(Some(1), Some(1), true, true);
      var job: Job := (Turbo("", 1.0), a);
      assert [job][1..] == [];
      assert ShowsAll(stale, isLive, l, [job]);
      assert PayAllPosted(isLive, l, [job]) == PayPosted(isLive, l, job.0, a);
      assert Posts(isLive, job.0, a);
      assert !NeverOverdrawn(stale, isLive, l, [job]);
    } else {
      forall l, jobs
        ensures NeverOverdrawn(stale, isLive, l, jobs)
      {
        if Solvent(l) && ShowsAll(stale, isLive, l, jobs) {
          OwnCheckCovers(isLive, l, jobs);
        }
      }
    }
  }

  /** Whatever becomes of the replies, payments carried out and payments reported differ only by the
    * lost and the phantom ones. */
  lemma {:induction false} ReportsBalance(fates: seq<Fate>, p: Payment)
    ensures multiset(Paid(fates))[p] + Count(fates, f => Phantom(f) && f.payment == p)
         == multiset(Reported(fates))[p] + Count(fates, f => Lost(f) && f.payment == p)
  {
    if fates != [] {
      ReportsBalance(fates[1..], p);
    }
  }

  function Count(fates: seq<Fate>, kind: Fate -> bool): (n: nat)
    ensures n <= |fates|
  {
    if fates == [] then 0 else (if kind(fates[0]) then 1 else 0) + Count(fates[1..], kind)
  }

  lemma RunTwo(isLive: Option<string>, l: Ledger, x: Job, y: Job)
    ensures var l1 := Execute(isLive, l, x.0, x.1).0;
      && RunAll(isLive, l, [x, y]) == Execute(isLive, l1, y.0, y.1).0
      && Fates(isLive, l, [x, y]) == [FateOf(isLive, l, x), FateOf(isLive, l1, y)]
  {
    var l1 := Execute(isLive, l, x.0, x.1).0;
    assert [x, y][1..] == [y];
    assert RunAll(isLive, l1, [y]) == Execute(isLive, l1, y.0, y.1).0;
    assert Fates(isLive, l1, [y]) == [FateOf(isLive, l1, y)];
  }

  lemma ReportedTwo(x: Fate, y: Fate)
    requires !x.reported && y.reported
    ensures Reported([x, y]) == [y.payment]
  {
    assert [x, y][1..] == [y];
    assert Reported([y]) == [y.payment];
  }

  /** A transfer goes out and waiting for its receipt fails: the send reports failure, and the
    * refill that the next check asks for pays once more. */
  lemma TransferPaidTwice(isLive: Option<string>, to: string, amount: nat) returns (l: Ledger, jobs: seq<Job>)
    requires Live(isLive)
    ensures |jobs| == 2 && Solvent(l) && jobs[0].0 == jobs[1].0 == Token(to, amount)
    ensures RunAll(isLive, l, jobs).payments == [SentTokens(to, amount), SentTokens(to, amount)]
    ensures Reported(Fates(isLive, l, jobs)) == [SentTokens(to, amount)]
  {
    l := Ledger(0, 2 * amount, []);
    var lost := (Token(to, amount), Answer(None, None, true, false));
    var seen := (Token(to, amount), Answer(None, None, true, true));
    jobs := [lost, seen];
    RunTwo(isLive, l, lost, seen);
    var l1 := Pay(l, SentTokens(to, amount));
    assert Execute(isLive, l, lost.0, lost.1) == (l1, false);
    ReportedTwo(FateOf(isLive, l, lost), FateOf(isLive, l1, seen));
  }

  /** Nothing moves unless IS_LIVE is exactly "true", though every send reports success. */
  lemma {:induction false} NotLiveLedger(isLive: Option<string>, l: Ledger, jobs: seq<Job>)
    requires !Live(isLive)
    ensures RunAll(isLive, l, jobs) == l
    ensures forall fate | fate in Fates(isLive, l, jobs) :: !fate.moved && fate.reported
    decreases |jobs|
  {
    if jobs != [] {
      NotLiveLedger(isLive, l, jobs[1..]);
    }
  }
}
