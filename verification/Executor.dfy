/**
 One call of the executor: up to `max_runs` attempts, each under the task's timeout, with a
 backoff between them. Times are microseconds; timeouts and backoffs are whole seconds.
 */
module Executor {
  import opened Wrappers
  import opened TaskRows

  datatype Backoff = Constant | Linear | Exponential

  function Pow2(n: nat): nat {
    if n == 0 then 1 else 2 * Pow2(n - 1)
  }

  /** Seconds to wait after the given failed attempt. */
  function Delay(backoff: Backoff, attempt: nat): nat {
    match backoff
    case Constant => 5
    case Linear => attempt
    case Exponential => Pow2(attempt)
  }

  /** All the waiting between n attempts. */
  function BackoffSum(backoff: Backoff, n: nat): nat {
    if n <= 1 then 0 else BackoffSum(backoff, n - 1) + Delay(backoff, n - 1)
  }

  lemma {:induction false} BackoffClosedForms(n: nat)
    requires n >= 1
    ensures BackoffSum(Constant, n) == 5 * (n - 1)
    ensures BackoffSum(Linear, n) == n * (n - 1) / 2
    ensures BackoffSum(Exponential, n) == Pow2(n) - 2
  {
    if n > 1 {
      BackoffClosedForms(n - 1);
      assert n * (n - 1) == (n - 1) * (n - 2) + 2 * (n - 1);
    }
  }

  datatype Result = Succeeded | TimedOut | Raised(message: string)

  /** How an attempt of the handler ends and how long it takes. */
  datatype Attempt = Attempt(result: Result, duration: Time)

  /** asyncio.timeout cuts every attempt off at the task's timeout. */
  ghost predicate UnderTimeout(attempts: nat -> Attempt, timeout: nat) {
    forall k :: 0 <= attempts(k).duration <= timeout * SECOND
  }

  /** The time that the first n attempts take, without the waiting between them. */
  function Worked(attempts: nat -> Attempt, n: nat): Time {
    if n == 0 then 0 else Worked(attempts, n - 1) + attempts(n).duration
  }

  /** Seconds within which a call returns. */
  function ExecutionBound(maxRuns: nat, timeout: nat, backoff: Backoff): nat {
    maxRuns * timeout + BackoffSum(backoff, maxRuns)
  }

  function ErrorText(result: Result): string {
    match result
    case Succeeded => ""
    case TimedOut => "timed out"
    case Raised(message) => message
  }

  /**
   The retry loop. Attempt numbers start at 1; `started_at` is the start of the whole call,
   so a run that succeeds on a later attempt is still dated before its first one.
   */
  method Execute(maxRuns: int, timeout: nat, backoff: Backoff, attempts: nat -> Attempt, start: Time)
    returns (outcome: Outcome, end: Time)
    requires UnderTimeout(attempts, timeout)
    ensures outcome.startedAt == start <= end
    ensures var n: nat := if outcome.attempts < 0 then 0 else outcome.attempts;
      end == start + Worked(attempts, n) + BackoffSum(backoff, n) * SECOND
    ensures maxRuns >= 0 ==> end <= start + ExecutionBound(maxRuns, timeout, backoff) * SECOND
    ensures outcome.ok <==> exists k: nat :: 1 <= k <= maxRuns && attempts(k).result.Succeeded?
    ensures outcome.ok ==> 1 <= outcome.attempts <= maxRuns && attempts(outcome.attempts).result.Succeeded? &&
                           forall k: nat :: 1 <= k < outcome.attempts ==> !attempts(k).result.Succeeded?
    ensures !outcome.ok ==> outcome.attempts == maxRuns
    ensures !outcome.ok && maxRuns >= 1 ==>
      match attempts(maxRuns).result
      case TimedOut => outcome.error == "timed out"
      case Raised(message) => outcome.error == message
      case Succeeded => false
  {
    var now := start;
    var error := "";
    var attempt: nat := 1;
    while attempt <= maxRuns
      invariant 1 <= attempt && (attempt > 1 ==> attempt <= maxRuns + 1)
      invariant forall k: nat :: 1 <= k < attempt ==> !attempts(k).result.Succeeded?
      invariant now == start + Worked(attempts, attempt - 1) + BackoffSum(backoff, if attempt <= maxRuns then attempt else attempt - 1) * SECOND
      invariant attempt > 1 ==> error == ErrorText(attempts(attempt - 1).result)
      decreases maxRuns - attempt
    {
      var done := attempts(attempt);
      now := now + done.duration;
      if done.result.Succeeded? {
        InTime(attempts, timeout, backoff, attempt, maxRuns);
        return Outcome(true, start, "", attempt), now;
      }
      error := ErrorText(done.result);
      if attempt < maxRuns {
        now := now + Delay(backoff, attempt) * SECOND;
      }
      attempt := attempt + 1;
    }
    InTime(attempts, timeout, backoff, attempt - 1, if maxRuns < 0 then 0 else maxRuns);
    return Outcome(false, start, error, maxRuns), now;
  }

  /** Some of the permitted attempts take no longer than all of them may. */
  lemma InTime(attempts: nat -> Attempt, timeout: nat, backoff: Backoff, m: nat, n: nat)
    requires UnderTimeout(attempts, timeout) && m <= n
    ensures 0 <= Worked(attempts, m) + BackoffSum(backoff, m) * SECOND <= ExecutionBound(n, timeout, backoff) * SECOND
  {
    WorkedAtMost(attempts, timeout, m);
    BackoffGrows(backoff, m, n);
    BoundGrows(m, n, timeout);
    InSeconds(Worked(attempts, m), m * timeout, n * timeout, BackoffSum(backoff, m), BackoffSum(backoff, n));
  }

  lemma InSeconds(worked: Time, m: nat, n: nat, less: nat, more: nat)
    requires 0 <= worked <= m * SECOND && m <= n && less <= more
    ensures 0 <= worked + less * SECOND <= (n + more) * SECOND
  {
  }

  lemma BoundGrows(m: nat, n: nat, timeout: nat)
    requires m <= n
    ensures m * timeout <= n * timeout
  {
  }

  lemma {:induction false} WorkedAtMost(attempts: nat -> Attempt, timeout: nat, n: nat)
    requires UnderTimeout(attempts, timeout)
    ensures 0 <= Worked(attempts, n) <= n * timeout * SECOND
  {
    if n > 0 {
      WorkedAtMost(attempts, timeout, n - 1);
      assert n * timeout == (n - 1) * timeout + timeout;
    }
  }

  lemma {:induction false} BackoffGrows(backoff: Backoff, m: nat, n: nat)
    requires m <= n
    ensures BackoffSum(backoff, m) <= BackoffSum(backoff, n)
    decreases n - m
  {
    if m < n {
      BackoffGrows(backoff, m, n - 1);
    }
  }
}
