/** The balance check before an AR send. A send reads the spender's balance, posts its transaction,
  * and is done; the balance that the gateway reports falls only when the transaction is mined. */
module RefillRace {

  datatype Phase = Taken | Checked | Posted | Over

  datatype Send = Send(amount: nat, phase: Phase)

  /** `shown` is the balance that the gateway reports, `owed` what transactions posted and not yet
    * mined will take from it. `uncovered`: some transaction was posted that what is left after
    * these could not cover. */
  datatype State = State(shown: nat, owed: nat, sends: seq<Send>, uncovered: bool)

  datatype Step =
    | Take(amount: nat)
    | ReadBalance(send: nat)
    | Post(send: nat, accepted: bool)
    | Confirm(send: nat)
    | Expire(send: nat)  // a posted transaction is never mined
    | Deposit(amount: nat)

  /** When a send may read the balance: at any time, as workers in several processes do; when no
    * other is between its read and its post, as one worker does; when no other is between its read
    * and its confirmation. */
  datatype Guard = AtAnyTime | OneAtATime | AfterConfirmation

  predicate InTheWay(guard: Guard, send: Send) {
    (guard != AtAnyTime && send.phase.Checked?) || (guard == AfterConfirmation && send.phase.Posted?)
  }

  predicate MayRead(guard: Guard, s: State) {
    forall i | 0 <= i < |s.sends| :: !InTheWay(guard, s.sends[i])
  }

  predicate At(s: State, i: nat, phase: Phase) {
    i < |s.sends| && s.sends[i].phase == phase
  }

  function SetPhase(s: State, i: nat, phase: Phase): State
    requires i < |s.sends|
  {
    s.(sends := s.sends[i := s.sends[i].(phase := phase)])
  }

  function Apply(guard: Guard, s: State, step: Step): State {
    match step
    case Take(amount) => s.(sends := s.sends + [Send(amount, Taken)])
    case ReadBalance(i) =>
      if !At(s, i, Taken) || !MayRead(guard, s) then s
      else SetPhase(s, i, if s.shown < s.sends[i].amount then Over else Checked)
    case Post(i, accepted) =>
      if !At(s, i, Checked) then s
      else if s.owed + s.sends[i].amount > s.shown then SetPhase(s, i, Over).(uncovered := true)
      else if accepted then SetPhase(s, i, Posted).(owed := s.owed + s.sends[i].amount)
      else SetPhase(s, i, Over)
    case Confirm(i) =>
      if !At(s, i, Posted) || s.sends[i].amount > s.owed || s.sends[i].amount > s.shown then s
      else SetPhase(s, i, Over).(owed := s.owed - s.sends[i].amount, shown := s.shown - s.sends[i].amount)
    case Expire(i) =>
      if !At(s, i, Posted) || s.sends[i].amount > s.owed then s
      else SetPhase(s, i, Over).(owed := s.owed - s.sends[i].amount)
    case Deposit(amount) => s.(shown := s.shown + amount)
  }

  function Run(guard: Guard, s: State, steps: seq<Step>): State
    decreases |steps|
  {
    if steps == [] then s else Run(guard, Apply(guard, s, steps[0]), steps[1..])
  }

  lemma {:induction false} RunConcat(guard: Guard, s: State, first: seq<Step>, second: seq<Step>)
    ensures Run(guard, s, first + second) == Run(guard, Run(guard, s, first), second)
    decreases |first|
  {
    if first == [] {
      assert first + second == second;
    } else {
      assert (first + second)[1..] == first[1..] + second;
      RunConcat(guard, Apply(guard, s, first[0]), first[1..], second);
    }
  }

  // ----- The books of the spender

  function PostedTotal(sends: seq<Send>): nat {
    if sends == [] then 0
    else
      var last := sends[|sends| - 1];
      PostedTotal(sends[..|sends| - 1]) + if last.phase.Posted? then last.amount else 0
  }

  lemma PostedUpdate(sends: seq<Send>, i: nat, phase: Phase)
    requires i < |sends|
    ensures PostedTotal(sends[i := sends[i].(phase := phase)]) + (if sends[i].phase.Posted? then sends[i].amount else 0)
         == PostedTotal(sends) + if phase.Posted? then sends[i].amount else 0
  {
    var n := |sends| - 1;
    var sends' := sends[i := sends[i].(phase := phase)];
    if i < n {
      assert sends'[..n] == sends[..n][i := sends[i].(phase := phase)];
      PostedUpdate(sends[..n], i, phase);
    } else {
      assert sends'[..n] == sends[..n];
    }
  }

  /** What is owed is what the sends posted and not yet mined amount to, and the balance covers it. */
  ghost predicate Books(s: State) { s.owed == PostedTotal(s.sends) <= s.shown }

  function DepositIn(step: Step): nat { if step.Deposit? then step.amount else 0 }

  function Deposits(steps: seq<Step>): nat {
    if steps == [] then 0 else DepositIn(steps[0]) + Deposits(steps[1..])
  }

  function MinedIn(s: State, step: Step): nat {
    if step.Confirm? && At(s, step.send, Posted) then s.sends[step.send].amount else 0
  }

  /** The winston that leave the spender in a run: those of the sends that are mined. */
  function Mined(guard: Guard, s: State, steps: seq<Step>): nat
    decreases |steps|
  {
    if steps == [] then 0 else MinedIn(s, steps[0]) + Mined(guard, Apply(guard, s, steps[0]), steps[1..])
  }

  /** A step changes the phase of at most one send. */
  lemma OnePhaseChanges(guard: Guard, s: State, step: Step, i: nat)
    requires !step.Take? && !step.Deposit? && step.send == i < |s.sends|
    ensures var s' := Apply(guard, s, step);
      |s'.sends| == |s.sends| && s'.sends == s.sends[i := s.sends[i].(phase := s'.sends[i].phase)]
  {
  }

  lemma SendKeepsBooks(guard: Guard, s: State, step: Step, i: nat)
    requires Books(s) && !step.Take? && !step.Deposit? && step.send == i < |s.sends|
    ensures var s' := Apply(guard, s, step);
      && Books(s') && s'.shown + MinedIn(s, step) == s.shown
      && ((step.Confirm? || step.Expire?) && At(s, i, Posted) ==> At(s', i, Over))
  {
    OnePhaseChanges(guard, s, step, i);
    PostedUpdate(s.sends, i, Apply(guard, s, step).sends[i].phase);
    PostedUpdate(s.sends, i, Over);
  }

  lemma StepKeepsBooks(guard: Guard, s: State, step: Step)
    requires Books(s)
    ensures var s' := Apply(guard, s, step);
      Books(s') && s'.shown + MinedIn(s, step) == s.shown + DepositIn(step)
  {
    if step.Take? {
      assert Apply(guard, s, step).sends[..|s.sends|] == s.sends;
    } else if !step.Deposit? && step.send < |s.sends| {
      SendKeepsBooks(guard, s, step, step.send);
    }
  }

  /** Under every guard and in every run, what is owed is what is posted, the balance shown covers it,
    * and that balance changes by the deposits and by the sends that are mined, and by nothing else. */
  lemma {:induction false} BooksBalance(guard: Guard, s: State, steps: seq<Step>)
    requires Books(s)
    ensures Books(Run(guard, s, steps))
    ensures Run(guard, s, steps).shown + Mined(guard, s, steps) == s.shown + Deposits(steps)
    decreases |steps|
  {
    if steps != [] {
      StepKeepsBooks(guard, s, steps[0]);
      BooksBalance(guard, Apply(guard, s, steps[0]), steps[1..]);
    }
  }

  function Rank(phase: Phase): nat {
    match phase case Taken => 0 case Checked => 1 case Posted => 2 case Over => 3
  }

  /** Which sends the code lets through, and that each ends once: a send that reads the balance goes
    * on exactly if this shows its amount; it posts at most once, and nothing brings it back. */
  lemma SendsMoveOn(guard: Guard, s: State, step: Step, i: nat)
    requires i < |s.sends|
    ensures var p, p' := s.sends[i].phase, Apply(guard, s, step).sends[i].phase;
      && Apply(guard, s, step).sends[i].amount == s.sends[i].amount
      && (p' != p ==> Rank(p) < Rank(p'))
      && (p.Taken? && p'.Checked? ==> s.sends[i].amount <= s.shown)
      && (p.Taken? && step == ReadBalance(i) && MayRead(guard, s) ==>
            p' == if s.sends[i].amount <= s.shown then Checked else Over)
      && (p.Checked? && step.Post? && step.send == i ==>
            p' == if step.accepted && s.owed + s.sends[i].amount <= s.shown then Posted else Over)
      && (p.Checked? && step.Post? && step.send == i ==>
            (Apply(guard, s, step).uncovered <==> s.uncovered || s.owed + s.sends[i].amount > s.shown))
      && (p'.Posted? && !p.Posted? ==> p.Checked? && step == Post(i, true))
      && (p.Posted? && p'.Over? ==> step == Confirm(i) || step == Expire(i))
  {
  }

  // ----- What the balance check is worth

  /** At most one send is between its read and its confirmation, and the balance covers it; what is
    * owed is what this one has posted. */
  ghost predicate RaceInv(s: State) {
    && !s.uncovered
    && (forall i | 0 <= i < |s.sends| && InTheWay(AfterConfirmation, s.sends[i]) ::
          && s.sends[i].amount <= s.shown
          && s.owed == if s.sends[i].phase.Posted? then s.sends[i].amount else 0)
    && (forall i, j | 0 <= i < |s.sends| && 0 <= j < |s.sends| ::
          InTheWay(AfterConfirmation, s.sends[i]) && InTheWay(AfterConfirmation, s.sends[j]) ==> i == j)
    && (MayRead(AfterConfirmation, s) ==> s.owed == 0)
  }

  lemma StepKeepsInv(s: State, step: Step)
    requires RaceInv(s)
    ensures RaceInv(Apply(AfterConfirmation, s, step))
  {
    var s' := Apply(AfterConfirmation, s, step);
    if step.Take? && !MayRead(AfterConfirmation, s) {
      var i :| 0 <= i < |s.sends| && InTheWay(AfterConfirmation, s.sends[i]);
      assert InTheWay(AfterConfirmation, s'.sends[i]);
    } else if step.Post? && At(s, step.send, Checked) {
      assert InTheWay(AfterConfirmation, s.sends[step.send]);
      assert s'.sends[step.send].phase.Posted? ==> InTheWay(AfterConfirmation, s'.sends[step.send]);
    } else if step.ReadBalance? && s' != s {
      assert s'.sends[step.send].phase.Checked? ==> InTheWay(AfterConfirmation, s'.sends[step.send]);
    } else if step.Deposit? {
      assert MayRead(AfterConfirmation, s') ==> MayRead(AfterConfirmation, s);
    }
  }

  lemma {:induction false} RunKeepsInv(s: State, steps: seq<Step>)
    requires RaceInv(s)
    ensures RaceInv(Run(AfterConfirmation, s, steps))
    decreases |steps|
  {
    if steps != [] {
      StepKeepsInv(s, steps[0]);
      RunKeepsInv(Apply(AfterConfirmation, s, steps[0]), steps[1..]);
    }
  }

  ghost predicate AlwaysCovered(guard: Guard, balance: nat, steps: seq<Step>) {
    !Run(guard, State(balance, 0, [], false), steps).uncovered
  }

  lemma RunThree(guard: Guard, s: State, x: Step, y: Step, z: Step)
    ensures Run(guard, s, [x, y, z]) == Apply(guard, Apply(guard, Apply(guard, s, x), y), z)
  {
    var s1 := Apply(guard, s, x);
    var s2 := Apply(guard, s1, y);
    assert Run(guard, s2, [z]) == Apply(guard, s2, z);
    assert [y, z][1..] == [z];
    assert Run(guard, s1, [y, z]) == Run(guard, s2, [z]);
    assert [x, y, z][1..] == [y, z];
  }

  /** One send after the other: the first is posted and over before the second reads the balance,
    * which still shows what the first will take. */
  lemma SerialSendsOverdraw(guard: Guard) returns (steps: seq<Step>)
    requires guard != AfterConfirmation
    ensures !AlwaysCovered(guard, 1, steps)
  {
    var first, second := [Take(1), ReadBalance(0), Post(0, true)], [Take(1), ReadBalance(1), Post(1, true)];
    steps := first + second;
    var s0 := State(1, 0, [], false);
    RunThree(guard, s0, Take(1), ReadBalance(0), Post(0, true));
    var s3 := Run(guard, s0, first);
    assert s3 == State(1, 1, [Send(1, Posted)], false);
    RunThree(guard, s3, Take(1), ReadBalance(1), Post(1, true));
    assert Apply(guard, s3, Take(1)).sends == [Send(1, Posted), Send(1, Taken)];
    assert Apply(guard, Apply(guard, s3, Take(1)), ReadBalance(1)).sends[1] == Send(1, Checked);
    assert Run(guard, s3, second).uncovered;
    RunConcat(guard, s0, first, second);
  }

  /** The balance check protects the spender in all runs exactly when a send reads the balance only
    * while no earlier send is between its read and its confirmation. Taking refills one at a time
    * is not enough, and the refills queue has a worker in every process. */
  lemma CoveredIffConfirmed(guard: Guard)
    ensures (forall balance, steps :: AlwaysCovered(guard, balance, steps)) <==> guard == AfterConfirmation
  {
    if guard == AfterConfirmation {
      forall balance, steps
        ensures AlwaysCovered(guard, balance, steps)
      {
        RunKeepsInv(State(balance, 0, [], false), steps);
      }
    } else {
      var steps := SerialSendsOverdraw(guard);
    }
  }
}
