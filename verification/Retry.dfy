/**
 Retrying a transaction with exponential backoff. The calls of `fn` are numbered from 0; what the k-th one
 does is an arbitrary function of k, and so is the random number drawn before the k-th wait.
 */
module Retry {
  datatype Failure =
    | Other(id: int)                        // not a TypeORM error
    | Query(id: int, errno: int, sqlState: string)

  datatype Outcome = Resolved(value: int) | Rejected(error: Failure)

  const ER_LOCK_DEADLOCK := 1213
  const ER_LOCK_TIMEOUT := 1213
  const ER_LOCK_WAIT_TIMEOUT := 1205

  /** How a call of `retryTypeormTransaction` ends: its outcome, the number of `fn` calls, the time waited. */
  datatype Ending = Ending(outcome: Outcome, calls: nat, waited: int)

  type Unit = x: real | 0.0 <= x < 1.0 witness 0.0

  predicate IsDeadlockOrTimeout(e: Failure) {
    e.Query? && (e.errno == ER_LOCK_DEADLOCK || e.errno == ER_LOCK_TIMEOUT
                 || e.sqlState == "40001" || e.errno == ER_LOCK_WAIT_TIMEOUT)
  }

  /** The errors worth another attempt. */
  predicate Retryable(e: Failure, retryAll: bool) {
    e.Query? && (IsDeadlockOrTimeout(e) || retryAll)
  }

  lemma ScaledUnit(x: real, n: int)
    requires 0.0 <= x < 1.0 && n >= 1
    ensures 0.0 <= x * n as real < n as real
  {
    assert (1.0 - x) * n as real > 0.0;
  }

  /** The errors that are tried again: deadlocks, lock timeouts and serialization failures of the database, or with
      `retryAll` every error of the database; no other error ever is. */
  lemma RetryableErrors(e: Failure, retryAll: bool)
    ensures Retryable(e, retryAll) <==>
              e.Query? && (retryAll || e.errno == 1213 || e.errno == 1205 || e.sqlState == ['4', '0', '0', '0', '1'])
  {
  }

  function RandInt(random: Unit, min: int, max: int): (r: int)
    requires min <= max
    ensures min <= r <= max
  {
    ScaledUnit(random, max - min + 1);
    (random * (max - min + 1) as real + min as real).Floor
  }

  function Pow2(n: nat): (p: int)
    ensures p >= 1
  {
    if n == 0 then 1 else 2 * Pow2(n - 1)
  }

  /** The wait before attempt `nextAttempt`, in milliseconds. */
  function Backoff(nextAttempt: nat, random: Unit): int {
    Pow2(nextAttempt) * 100 + RandInt(random, 300, 1000)
  }

  /** The inner recursion; attempt `n` makes the `fn` call numbered `n - 1`. */
  function Execute(fn: nat -> Outcome, random: nat -> Unit, maxAttempts: int, retryAll: bool, attempt: nat): Ending
    requires attempt >= 1
    decreases maxAttempts - attempt
  {
    var outcome := fn(attempt - 1);
    if outcome.Rejected? && Retryable(outcome.error, retryAll) && attempt <= maxAttempts then
      var rest := Execute(fn, random, maxAttempts, retryAll, attempt + 1);
      Ending(rest.outcome, rest.calls + 1, rest.waited + Backoff(attempt + 1, random(attempt - 1)))
    else Ending(outcome, 1, 0)
  }

  function RetryTransaction(fn: nat -> Outcome, random: nat -> Unit, maxAttempts: int, retryAll: bool): Ending {
    Execute(fn, random, maxAttempts, retryAll, 1)
  }

  // ---------------------------------------------------------------- what a caller observes

  function Max(a: int, b: int): int { if a < b then b else a }

  /** The `fn` call numbered k asks for another one. */
  ghost predicate Fails(fn: nat -> Outcome, retryAll: bool, k: nat) {
    fn(k).Rejected? && Retryable(fn(k).error, retryAll)
  }

  lemma {:induction false} ExecuteStops(fn: nat -> Outcome, random: nat -> Unit, maxAttempts: int, retryAll: bool,
                                        attempt: nat)
    requires attempt >= 1
    ensures var end := Execute(fn, random, maxAttempts, retryAll, attempt);
            var last := attempt - 1 + end.calls - 1;
            && end.calls >= 1
            && last <= Max(maxAttempts, attempt - 1)
            && end.outcome == fn(last)
            && (forall k: nat :: attempt - 1 <= k < last ==> Fails(fn, retryAll, k))
            && (last < maxAttempts ==> !Fails(fn, retryAll, last))
    decreases maxAttempts - attempt
  {
    if Fails(fn, retryAll, attempt - 1) && attempt <= maxAttempts {
      ExecuteStops(fn, random, maxAttempts, retryAll, attempt + 1);
    }
  }

  /** The ending is fixed by `fn` alone: every call before the last failed retryably, the last one's outcome is
      what the caller gets, and it is the last because it is not retryable or because the attempts are used
      up, of which there are at most max(maxAttempts, 0) + 1. */
  lemma StopsAtFirstFinalOutcome(fn: nat -> Outcome, random: nat -> Unit, maxAttempts: int,
                                 retryAll: bool)
    ensures var end := RetryTransaction(fn, random, maxAttempts, retryAll);
            && 1 <= end.calls <= Max(maxAttempts, 0) + 1
            && end.outcome == fn(end.calls - 1)
            && (forall k: nat :: k < end.calls - 1 ==> Fails(fn, retryAll, k))
            && (Fails(fn, retryAll, end.calls - 1) ==> end.calls == Max(maxAttempts, 0) + 1)
  {
    ExecuteStops(fn, random, maxAttempts, retryAll, 1);
  }

  /** A success within the allowed calls, with only retryable failures before it, is what the caller gets. */
  lemma FirstSuccessIsReturned(fn: nat -> Outcome, random: nat -> Unit, maxAttempts: int,
                               retryAll: bool, k: nat)
    requires k <= Max(maxAttempts, 0) && fn(k).Resolved?
    requires forall j: nat :: j < k ==> Fails(fn, retryAll, j)
    ensures RetryTransaction(fn, random, maxAttempts, retryAll).outcome == fn(k)
    ensures RetryTransaction(fn, random, maxAttempts, retryAll).calls == k + 1
  {
    StopsAtFirstFinalOutcome(fn, random, maxAttempts, retryAll);
    var last := RetryTransaction(fn, random, maxAttempts, retryAll).calls - 1;
    assert !Fails(fn, retryAll, k);
    assert Fails(fn, retryAll, last) ==> last == Max(maxAttempts, 0);
  }

  lemma {:induction false} ExecuteWaits(fn: nat -> Outcome, random: nat -> Unit, maxAttempts: int, retryAll: bool,
                                        attempt: nat)
    requires attempt >= 1
    ensures var end := Execute(fn, random, maxAttempts, retryAll, attempt);
            var n := end.calls - 1;
            && n >= 0
            && 100 * (Pow2(attempt + n + 1) - Pow2(attempt + 1)) + 300 * n <= end.waited
            && end.waited <= 100 * (Pow2(attempt + n + 1) - Pow2(attempt + 1)) + 1000 * n
    decreases maxAttempts - attempt
  {
    if Fails(fn, retryAll, attempt - 1) && attempt <= maxAttempts {
      ExecuteWaits(fn, random, maxAttempts, retryAll, attempt + 1);
    }
  }

  /** n retries request delays of 100 * (2^(n+2) - 4) ms in total and between 300 and 1000 ms more for each. */
  lemma TotalWait(fn: nat -> Outcome, random: nat -> Unit, maxAttempts: int, retryAll: bool)
    ensures var end := RetryTransaction(fn, random, maxAttempts, retryAll);
            var n := end.calls - 1;
            && n >= 0
            && 100 * (Pow2(n + 2) - 4) + 300 * n <= end.waited <= 100 * (Pow2(n + 2) - 4) + 1000 * n
  {
    ExecuteWaits(fn, random, maxAttempts, retryAll, 1);
    assert Pow2(2) == 4;
  }
}
