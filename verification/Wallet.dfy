/** One wallet over time: checks that read its balance, refills outstanding, settled or rejected in
  * any order, and money flowing out at any moment. */
module Wallet {
  import opened Options
  import opened Checks
  import Products

  /** A flow is named by its chain and its place among the launches of that chain. */
  type Flow = (nat, nat)

  /** `outstanding` are the refills asked for and not yet settled or rejected, counted from the
    * moment the balance was read; each flow checks a wallet at most once. */
  datatype State = State(balance: int, outstanding: map<Flow, int>, checked: set<Flow>)

  datatype Step =
    | Check(flow: Flow, fetched: bool)
    | Settle(flow: Flow)
    | Reject(flow: Flow)
    | Outflow(amount: nat)

  function Apply(rule: Rule, s: State, step: Step): State {
    match step
    case Check(f, fetched) =>
      if f in s.checked || s.balance < 0 then s
      else
        var r := Request(rule, if fetched then Some(s.balance) else None);
        s.(checked := s.checked + {f}, outstanding := if r == None then s.outstanding else s.outstanding[f := r.value])
    case Settle(f) =>
      if f !in s.outstanding then s
      else s.(balance := s.balance + s.outstanding[f], outstanding := s.outstanding - {f})
    case Reject(f) => s.(outstanding := s.outstanding - {f})
    case Outflow(amount) => if amount <= s.balance then s.(balance := s.balance - amount) else s
  }

  function Run(rule: Rule, s: State, steps: seq<Step>): State
    decreases |steps|
  {
    if steps == [] then s else Run(rule, Apply(rule, s, steps[0]), steps[1..])
  }

  ghost function Pending(m: map<Flow, int>): int {
    if m == map[] then 0 else var f :| f in m; m[f] + Pending(m - {f})
  }

  lemma PendingRemove(m: map<Flow, int>, f: Flow)
    requires f in m
    ensures Pending(m) == m[f] + Pending(m - {f})
  {
    var g :| g in m && Pending(m) == m[g] + Pending(m - {g});
    if g != f {
      PendingRemove(m - {g}, f);
      PendingRemove(m - {f}, g);
      assert m - {g} - {f} == m - {f} - {g};
    }
  }

  lemma PendingAdd(m: map<Flow, int>, f: Flow, r: int)
    requires f !in m
    ensures Pending(m[f := r]) == r + Pending(m)
  {
    PendingRemove(m[f := r], f);
    assert m[f := r] - {f} == m;
  }

  lemma PendingAtMost(m: map<Flow, int>, max: int)
    requires max >= 0 && forall f | f in m :: m[f] <= max
    ensures Pending(m) <= |m| * max
  {
    if m != map[] {
      var f :| f in m;
      PendingRemove(m, f);
      PendingAtMost(m - {f}, max);
      assert |m - {f}| == |m| - 1 by { assert (m - {f}).Keys == m.Keys - {f}; }
      Products.OneMore(|m| - 1, max);
    }
  }

  /** Settled balance and everything still to come. */
  ghost function Total(s: State): int { s.balance + Pending(s.outstanding) }

  function Max(x: int, y: int): int { if x < y then y else x }

  ghost predicate Sane(rule: Rule, s: State) {
    && s.balance >= 0
    && s.outstanding.Keys <= s.checked
    && forall f | f in s.outstanding :: 0 < s.outstanding[f] <= rule.max
  }

  lemma OneMoreFits(pending: int, n: nat, k: nat, max: nat)
    requires pending <= n * max && n + 1 <= k
    ensures max + pending <= k * max
  {
    Products.Monotone(n + 1, k, max);
    Products.OneMore(n, max);
  }

  lemma AskOvershoot(m: map<Flow, int>, f: Flow, r: int, k: nat, max: nat)
    requires f !in m && |m[f := r]| <= k && forall g | g in m :: m[g] <= max
    ensures max - r + Pending(m[f := r]) <= k * max
  {
    PendingAdd(m, f, r);
    PendingAtMost(m, max);
    assert m[f := r].Keys == m.Keys + {f};
    OneMoreFits(Pending(m), |m|, k, max);
  }

  lemma StepSane(rule: Rule, s: State, step: Step)
    requires Sound(rule) && Sane(rule, s)
    ensures Sane(rule, Apply(rule, s, step))
  {
  }

  /** No step but a check that asks can raise the total. */
  lemma OnlyAsksRaise(rule: Rule, s: State, step: Step)
    requires Apply(rule, s, step).outstanding.Keys <= s.outstanding.Keys
    requires step.Check? ==> Apply(rule, s, step).outstanding == s.outstanding
    requires forall f | f in s.outstanding :: s.outstanding[f] > 0
    ensures Total(Apply(rule, s, step)) <= Total(s)
  {
    var m := s.outstanding;
    if step.Settle? || step.Reject? {
      if step.flow in m { PendingRemove(m, step.flow); } else { assert m - {step.flow} == m; }
    }
  }

  lemma AsksFillUp(rule: Rule, s: State, f: Flow, fetched: bool, k: nat)
    requires rule.max >= 0 && s.outstanding.Keys <= s.checked
    requires forall g | g in s.outstanding :: s.outstanding[g] <= rule.max
    requires Apply(rule, s, Check(f, fetched)).outstanding != s.outstanding
    requires |Apply(rule, s, Check(f, fetched)).outstanding| <= k
    ensures Total(Apply(rule, s, Check(f, fetched))) <= k * rule.max
  {
    var s' := Apply(rule, s, Check(f, fetched));
    AskIs(rule, s, f, fetched);
    AskTotal(s, s', f, rule.max, k);
  }

  lemma AskTotal(s: State, s': State, f: Flow, max: nat, k: nat)
    requires f !in s.outstanding && forall g | g in s.outstanding :: s.outstanding[g] <= max
    requires s'.balance == s.balance && s'.outstanding == s.outstanding[f := max - s.balance] && |s'.outstanding| <= k
    ensures Total(s') <= k * max
  {
    AskOvershoot(s.outstanding, f, max - s.balance, k, max);
  }

  lemma AskIs(rule: Rule, s: State, f: Flow, fetched: bool)
    requires s.outstanding.Keys <= s.checked
    requires Apply(rule, s, Check(f, fetched)).outstanding != s.outstanding
    ensures f !in s.outstanding
    ensures var s' := Apply(rule, s, Check(f, fetched));
      s'.balance == s.balance && s'.outstanding == s.outstanding[f := rule.max - s.balance]
  {
  }

  /** One step, when at most k refills are outstanding after it. */
  lemma StepOvershoot(rule: Rule, s: State, step: Step, k: nat)
    requires Sound(rule) && Sane(rule, s) && |Apply(rule, s, step).outstanding| <= k
    ensures Total(Apply(rule, s, step)) <= Total(s) || Total(Apply(rule, s, step)) <= k * rule.max
  {
    if step.Check? && Apply(rule, s, step).outstanding != s.outstanding {
      assert forall g | g in s.outstanding :: s.outstanding[g] <= rule.max;
      AsksFillUp(rule, s, step.flow, step.fetched, k);
    } else {
      OnlyAsksRaise(rule, s, step);
    }
  }

  /** At no moment of the run are more than k refills outstanding. */
  ghost predicate NeverMoreThan(rule: Rule, s: State, steps: seq<Step>, k: nat)
    decreases |steps|
  {
    |s.outstanding| <= k && (steps != [] ==> NeverMoreThan(rule, Apply(rule, s, steps[0]), steps[1..], k))
  }

  /** With at most k refills outstanding at once, the balance and all that is still to come never
    * exceed the larger of what there was and k times max, whatever flows out and in whatever
    * order refills settle. For k = 1: never above max. */
  lemma {:induction false} OvershootBound(rule: Rule, s: State, steps: seq<Step>, k: nat)
    requires Sound(rule) && Sane(rule, s) && NeverMoreThan(rule, s, steps, k)
    ensures Total(Run(rule, s, steps)) <= Max(Total(s), k * rule.max)
    decreases |steps|
  {
    if steps != [] {
      var s' := Apply(rule, s, steps[0]);
      StepOvershoot(rule, s, steps[0], k);
      StepSane(rule, s, steps[0]);
      OvershootBound(rule, s', steps[1..], k);
    }
  }

  /** Each flow checks a wallet once; that check asks for max less the balance exactly when it could
    * read one and this lies below min, and for nothing else. */
  lemma CheckAsksIff(rule: Rule, s: State, f: Flow, fetched: bool)
    requires s.balance >= 0
    ensures var s' := Apply(rule, s, Check(f, fetched));
      && (f in s.checked ==> s' == s) && f in s'.checked && s'.balance == s.balance
      && (f !in s.checked && fetched && s.balance < rule.min && !(rule.zeroIsFailure && s.balance == 0)
          ==> s'.outstanding == s.outstanding[f := rule.max - s.balance])
      && (!fetched || s.balance >= rule.min || (rule.zeroIsFailure && s.balance == 0)
          ==> s'.outstanding == s.outstanding)
  {
  }

  /** Settling moves a refill into the balance, and rejecting it takes it off the total, once each. */
  lemma RefillsEndOnce(rule: Rule, s: State, f: Flow)
    requires f in s.outstanding
    ensures var settled, rejected := Apply(rule, s, Settle(f)), Apply(rule, s, Reject(f));
      && f !in settled.outstanding && settled.balance == s.balance + s.outstanding[f] && Total(settled) == Total(s)
      && f !in rejected.outstanding && rejected.balance == s.balance && Total(rejected) == Total(s) - s.outstanding[f]
  {
    PendingRemove(s.outstanding, f);
  }

  /** Anything up to the whole balance can flow out at any moment, and no more. */
  lemma OutflowIff(rule: Rule, s: State, amount: nat)
    ensures amount > 0 ==> (Apply(rule, s, Outflow(amount)).balance == s.balance - amount <==> amount <= s.balance)
    ensures amount > s.balance ==> Apply(rule, s, Outflow(amount)) == s
  {
  }

  // ----- The bound is reached

  function AskAll(k: nat): (steps: seq<Step>)
    ensures forall i | 0 <= i < |steps| :: steps[i].Check?
  {
    if k == 0 then [] else [Check((0, k - 1), true)] + AskAll(k - 1)
  }

  function SettleAll(k: nat): seq<Step> {
    if k == 0 then [] else [Settle((0, k - 1))] + SettleAll(k - 1)
  }

  ghost predicate Fresh(s: State, k: nat) {
    && (forall f | f in s.checked :: f.0 == 0 && f.1 >= k)
    && (forall f | f in s.outstanding :: f.0 == 0 && f.1 >= k)
  }

  lemma FirstCheckAsks(rule: Rule, s: State, k: nat)
    requires k > 0 && Fresh(s, k) && s.balance == 0 && rule.min > 0 && !rule.zeroIsFailure
    ensures var s' := Apply(rule, s, AskAll(k)[0]);
      && Fresh(s', k - 1) && s'.balance == 0 && AskAll(k)[1..] == AskAll(k - 1)
      && (0, k - 1) in s'.checked && (0, k - 1) in s'.outstanding && s'.outstanding[(0, k - 1)] == rule.max
      && |s'.outstanding| == |s.outstanding| + 1
  {
    var f: Flow := (0, k - 1);
    var s' := Apply(rule, s, AskAll(k)[0]);
    assert s'.outstanding == s.outstanding[f := rule.max];
    assert s'.outstanding.Keys == s.outstanding.Keys + {f};
  }

  lemma {:induction false} AllChecksCount(rule: Rule, s: State, k: nat)
    requires Fresh(s, k) && s.balance == 0 && rule.min > 0 && !rule.zeroIsFailure
    ensures var r := Run(rule, s, AskAll(k));
      r.balance == 0 && |r.outstanding| == |s.outstanding| + k
    decreases k
  {
    if k > 0 {
      FirstCheckAsks(rule, s, k);
      AllChecksCount(rule, Apply(rule, s, AskAll(k)[0]), k - 1);
    }
  }

  lemma {:induction false} AllChecksAsk(rule: Rule, s: State, k: nat, i: nat)
    requires Fresh(s, k) && s.balance == 0 && rule.min > 0 && !rule.zeroIsFailure && i < k
    ensures var r := Run(rule, s, AskAll(k));
      (0, i) in r.outstanding && r.outstanding[(0, i)] == rule.max
    decreases k
  {
    FirstCheckAsks(rule, s, k);
    var s' := Apply(rule, s, AskAll(k)[0]);
    if i < k - 1 {
      AllChecksAsk(rule, s', k - 1, i);
    } else {
      KeepsOutstanding(rule, s', AskAll(k - 1), (0, k - 1));
    }
  }

  lemma {:induction false} KeepsOutstanding(rule: Rule, s: State, steps: seq<Step>, f: Flow)
    requires f in s.outstanding && f in s.checked
    requires forall i | 0 <= i < |steps| :: steps[i].Check?
    ensures f in Run(rule, s, steps).outstanding && Run(rule, s, steps).outstanding[f] == s.outstanding[f]
    decreases |steps|
  {
    if steps != [] {
      KeepsOutstanding(rule, Apply(rule, s, steps[0]), steps[1..], f);
    }
  }

  lemma {:induction false} AllSettle(rule: Rule, s: State, k: nat)
    requires forall i: nat | i < k :: (0, i) in s.outstanding && s.outstanding[(0, i)] == rule.max
    ensures Run(rule, s, SettleAll(k)).balance == s.balance + k * rule.max
    decreases k
  {
    if k > 0 {
      assert SettleAll(k)[1..] == SettleAll(k - 1);
      AllSettle(rule, Apply(rule, s, SettleAll(k)[0]), k - 1);
      Products.OneMore(k - 1, rule.max);
    }
  }

  lemma RunConcat(rule: Rule, s: State, xs: seq<Step>, ys: seq<Step>)
    ensures Run(rule, s, xs + ys) == Run(rule, Run(rule, s, xs), ys)
    decreases |xs|
  {
    if xs == [] {
      assert xs + ys == ys;
    } else {
      assert (xs + ys)[1..] == xs[1..] + ys;
      RunConcat(rule, Apply(rule, s, xs[0]), xs[1..], ys);
    }
  }

  /** The bound is tight for every k: k checks of an empty wallet before the first refill settles
    * bring it to exactly k times max. AR refills have no de-duplication that would prevent it. */
  lemma OvershootIsReached(rule: Rule, k: nat)
    requires rule.min > 0 && !rule.zeroIsFailure
    ensures var s := State(0, map[], {});
      && |Run(rule, s, AskAll(k)).outstanding| == k
      && Run(rule, s, AskAll(k) + SettleAll(k)).balance == k * rule.max
  {
    var s := State(0, map[], {});
    AllChecksCount(rule, s, k);
    forall i: nat | i < k
      ensures (0, i) in Run(rule, s, AskAll(k)).outstanding && Run(rule, s, AskAll(k)).outstanding[(0, i)] == rule.max
    {
      AllChecksAsk(rule, s, k, i);
    }
    AllSettle(rule, Run(rule, s, AskAll(k)), k);
    RunConcat(rule, s, AskAll(k), SettleAll(k));
  }

  /** A pool whose zero balance is taken for a failed fetch is never refilled again. */
  lemma {:induction false} EmptyPoolStaysEmpty(rule: Rule, s: State, steps: seq<Step>)
    requires rule.zeroIsFailure && s.balance == 0 && s.outstanding == map[]
    ensures Run(rule, s, steps).balance == 0 && Run(rule, s, steps).outstanding == map[]
    decreases |steps|
  {
    if steps != [] {
      EmptyPoolStaysEmpty(rule, Apply(rule, s, steps[0]), steps[1..]);
    }
  }
}
