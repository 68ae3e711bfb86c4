/** The retry loops around aoconnect. */
module SendAos {
  import opened Options

  datatype Outcome<+T> = Ok(value: T) | Error(message: string)

  /** How a call of the retry loop ends. With no attempt made, `throw lastError` throws undefined. */
  datatype Ended<+T> = Returned(value: T) | Thrown(message: string) | ThrownUndefined

  /** error.message.includes('500'). */
  predicate Includes500(message: string) {
    |message| >= 3 && (message[..3] == "500" || Includes500(message[1..]))
  }

  /** A message is retried exactly when "500" stands somewhere in it. */
  lemma {:induction false} Includes500Iff(message: string)
    ensures Includes500(message)
       <==> exists i :: 0 <= i < |message| - 2 && message[i] == '5' && message[i + 1] == message[i + 2] == '0'
  {
    if |message| >= 3 {
      Includes500Iff(message[1..]);
      assert message[..3] == [message[0], message[1], message[2]];
      assert forall i | 1 <= i < |message| :: message[i] == message[1..][i - 1];
      if j :| 0 <= j < |message[1..]| - 2 && message[1..][j] == '5'
              && message[1..][j + 1] == message[1..][j + 2] == '0' {
        assert message[j + 1] == '5';
      }
    }
  }

  predicate Retryable<T>(o: Outcome<T>) { o.Error? && Includes500(o.message) }

  function Pow2(n: nat): (p: nat)
    ensures p > 0
  {
    if n == 0 then 1 else 2 * Pow2(n - 1)
  }

  function AtLeastZero(n: int): nat { if n < 0 then 0 else n }

  /** How many attempts, out of n, fail with a 500 before one does not. */
  function Retried<T>(outcome: nat -> Outcome<T>, n: nat): (k: nat)
    ensures k <= n
    ensures forall i: nat | i < k :: Retryable(outcome(i))
    ensures k < n ==> !Retryable(outcome(k))
  {
    if n == 0 then 0
    else
      var k := Retried(outcome, n - 1);
      if k < n - 1 || !Retryable(outcome(n - 1)) then k else n
  }

  /** There is only one such number. */
  lemma RetriedIs<T>(outcome: nat -> Outcome<T>, n: nat, k: nat)
    requires k <= n && (forall i: nat | i < k :: Retryable(outcome(i))) && (k < n ==> !Retryable(outcome(k)))
    ensures Retried(outcome, n) == k
  {
    var r := Retried(outcome, n);
    if r < k || k < r {
      assert false;
    }
  }

  /** How the loop ends when k of at most n attempts are retried. */
  function End<T>(outcome: nat -> Outcome<T>, n: nat, k: nat): Ended<T>
    requires k <= n && forall i: nat | i < k :: Retryable(outcome(i))
  {
    if k < n then (match outcome(k) case Ok(v) => Returned(v) case Error(m) => Thrown(m))
    else if n == 0 then ThrownUndefined
    else
      assert Retryable(outcome(n - 1));
      Thrown(outcome(n - 1).message)
  }

  /** The closed form: how the loop ends, the calls it makes, and the milliseconds it sleeps. */
  function ClosedForm<T>(outcome: nat -> Outcome<T>, retries: int): (Ended<T>, nat, nat) {
    var n := AtLeastZero(retries);
    var k := Retried(outcome, n);
    (End(outcome, n, k), if k < n then k + 1 else n, Backoff(k))
  }

  function Backoff(k: nat): nat { 2000 * (Pow2(k) - 1) }

  /** The n-th sleep, counted from zero, is 2^n * 2000 milliseconds: each is twice the one before. */
  lemma SleepsDouble(n: nat)
    ensures Backoff(0) == 0 && Backoff(1) == 2000
    ensures Backoff(n + 2) - Backoff(n + 1) == 2 * (Backoff(n + 1) - Backoff(n))
  {
    assert Pow2(0) == 1;
    assert Pow2(1) == 2 * Pow2(0);
  }

  lemma BackoffGrows(k: nat)
    ensures Backoff(k + 1) == Backoff(k) + Pow2(k) * 2000
  {
  }

  /** Without retries nothing is called; otherwise there is at least one call and at most `retries`. */
  lemma CallsAreBounded<T>(outcome: nat -> Outcome<T>, retries: int)
    ensures retries <= 0 ==> ClosedForm(outcome, retries) == (ThrownUndefined, 0, 0)
    ensures retries > 0 ==> && 1 <= ClosedForm(outcome, retries).1 <= retries
                            && !ClosedForm(outcome, retries).0.ThrownUndefined?
  {
    assert Pow2(0) == 1;
  }

  /** The loop ends at attempt k, which is not retried. */
  lemma EndsAt<T>(outcome: nat -> Outcome<T>, retries: int, k: nat)
    requires k < retries && (forall i: nat | i < k :: Retryable(outcome(i))) && !Retryable(outcome(k))
    ensures ClosedForm(outcome, retries)
         == (match outcome(k) case Ok(v) => Returned(v) case Error(m) => Thrown(m), k + 1, Backoff(k))
  {
    RetriedIs(outcome, retries, k);
  }

  /** The loop runs out of attempts. */
  lemma RunsOut<T>(outcome: nat -> Outcome<T>, retries: int, n: nat)
    requires n == AtLeastZero(retries) && forall i: nat | i < n :: Retryable(outcome(i))
    ensures n == 0 ==> ClosedForm(outcome, retries) == (ThrownUndefined, 0, 0)
    ensures n > 0 ==> && Retryable(outcome(n - 1))
                      && ClosedForm(outcome, retries) == (Thrown(outcome(n - 1).message), n, Backoff(n))
  {
    RetriedIs(outcome, n, n);
  }

  /** `dryRun(i)` is what attempt i meets; `slept` is the total backoff in milliseconds. */
  method SendAosDryRun<T>(dryRun: nat -> Outcome<T>, retries: int)
    returns (r: Ended<T>, calls: nat, slept: nat)
    ensures (r, calls, slept) == ClosedForm(dryRun, retries)
  {
    var attempts: nat := 0;
    var lastError: Option<string> := None;
    calls, slept := 0, 0;
    while attempts < retries
      invariant attempts <= AtLeastZero(retries)
      invariant calls == attempts && slept == Backoff(attempts)
      invariant forall i: nat | i < attempts :: Retryable(dryRun(i))
      invariant attempts > 0 ==> lastError == Some(dryRun(attempts - 1).message)
    {
      calls := calls + 1;
      match dryRun(attempts)
      case Ok(result) =>
        EndsAt(dryRun, retries, attempts);
        return Returned(result), calls, slept;
      case Error(message) =>
        if Includes500(message) {
          BackoffGrows(attempts);
          slept := slept + Pow2(attempts) * 2000;
          attempts := attempts + 1;
          lastError := Some(message);
        } else {
          EndsAt(dryRun, retries, attempts);
          return Thrown(message), calls, slept;
        }
    }
    RunsOut(dryRun, retries, attempts);
    r := if attempts == 0 then ThrownUndefined else Thrown(lastError.value);
  }

  /** One attempt of sendAosMessage: the message is submitted, then its result is fetched. */
  datatype Attempt<+T> = Attempt(message: Outcome<string>, result: Outcome<T>)

  function Both<T>(a: Attempt<T>): Outcome<(string, T)> {
    match a.message
    case Error(m) => Error(m)
    case Ok(id) => match a.result case Error(m) => Error(m) case Ok(v) => Ok((id, v))
  }

  function Whole<T>(attempt: nat -> Attempt<T>): (whole: nat -> Outcome<(string, T)>)
    ensures forall i: nat :: whole(i) == Both(attempt(i))
  {
    (i: nat) => Both(attempt(i))
  }

  function Submitted<T>(attempt: nat -> Attempt<T>, n: nat): (k: nat)
    ensures k <= n
    ensures (forall i: nat | i < n :: attempt(i).message.Ok?) ==> k == n
  {
    if n == 0 then 0 else Submitted(attempt, n - 1) + if attempt(n - 1).message.Ok? then 1 else 0
  }

  /** The attempts whose message was taken in, though its result may not have come. */
  lemma {:induction false} SubmittedIsCount<T>(attempt: nat -> Attempt<T>, n: nat)
    ensures Submitted(attempt, n) == |set i: nat | i < n && attempt(i).message.Ok?|
  {
    if n > 0 {
      SubmittedIsCount(attempt, n - 1);
      var before, all := set i: nat | i < n - 1 && attempt(i).message.Ok?, set i: nat | i < n && attempt(i).message.Ok?;
      assert all == before + if attempt(n - 1).message.Ok? then {n - 1} else {};
    }
  }

  /** What is returned belongs to the message of the last attempt. */
  lemma ReturnedIsLast<T>(attempt: nat -> Attempt<T>, retries: int)
    ensures var (r, calls, _) := ClosedForm(Whole(attempt), retries);
      r.Returned? ==> && calls > 0 && attempt(calls - 1).message == Ok(r.value.0)
                      && attempt(calls - 1).result == Ok(r.value.1)
  {
    var k := Retried(Whole(attempt), AtLeastZero(retries));
    assert Whole(attempt)(k) == Both(attempt(k));
  }

  /** The try block: submit, then fetch the result. */
  method SubmitAndFetch<T>(a: Attempt<T>) returns (o: Outcome<(string, T)>, sent: nat)
    ensures o == Both(a) && sent == if a.message.Ok? then 1 else 0
  {
    if a.message.Error? {
      return Error(a.message.message), 0;
    }
    var messageId := a.message.value;
    if a.result.Error? {
      return Error(a.result.message), 1;
    }
    return Ok((messageId, a.result.value)), 1;
  }

  /** `submitted` counts the messages that went out; an attempt whose result fails with a 500
    * has submitted its message and the next attempt submits another. */
  method SendAosMessage<T>(attempt: nat -> Attempt<T>, retries: int)
    returns (r: Ended<(string, T)>, calls: nat, slept: nat, submitted: nat)
    ensures (r, calls, slept) == ClosedForm(Whole(attempt), retries)
    ensures submitted == Submitted(attempt, calls) <= calls <= AtLeastZero(retries)
  {
    ghost var whole := Whole(attempt);
    var attempts: nat := 0;
    var lastError: Option<string> := None;
    calls, slept, submitted := 0, 0, 0;
    while attempts < retries
      invariant attempts <= AtLeastZero(retries)
      invariant calls == attempts && slept == Backoff(attempts)
      invariant submitted == Submitted(attempt, attempts)
      invariant forall i: nat | i < attempts :: Retryable(whole(i))
      invariant attempts > 0 ==> lastError == Some(whole(attempts - 1).message)
    {
      var outcome, sent := SubmitAndFetch(attempt(attempts));
      assert outcome == whole(attempts);
      calls, submitted := calls + 1, submitted + sent;
      assert submitted == Submitted(attempt, calls);
      if !Retryable(outcome) {
        r := match outcome case Ok(v) => Returned(v) case Error(m) => Thrown(m);
        assert (r, calls, slept) == ClosedForm(whole, retries) by { EndsAt(whole, retries, attempts); }
        return;
      }
      BackoffGrows(attempts);
      slept := slept + Pow2(attempts) * 2000;
      attempts := attempts + 1;
      lastError := Some(outcome.message);
    }
    r := if attempts == 0 then ThrownUndefined else Thrown(lastError.value);
    assert (r, calls, slept) == ClosedForm(whole, retries) by { RunsOut(whole, retries, attempts); }
  }
}
