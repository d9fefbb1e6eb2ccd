/**
 The polling loop of `get_or_load`, with Redis and the clock as its environment: whatever the
 GETs and the acquire script answer, and however long they take, a caller that never becomes
 the owner gives up after a bounded number of attempts.
 */
module FollowerWait {
  import opened Wrappers
  import opened LeaseScripts

  datatype Outcome = Cached(value: Value) | Loaded(produced: Option<Value>) | LoadFailed | TimedOut

  /** How the loader of an owner ends: a value, no value, or an error. */
  datatype Load = Value(value: Value) | Nothing | Error

  /**
   What the rest of the world does to one call. Numbered by attempt: what the GETs see, whether
   the script acquires, how long the commands take, and how much longer than asked a sleep takes.
   */
  datatype World = World(
    cached: nat -> Option<Value>, acquired: nat -> bool, rechecked: Option<Value>, load: Load,
    busy: nat -> real, oversleep: nat -> real)

  ghost predicate Plausible(w: World) {
    forall n :: w.busy(n) >= 0.0 && w.oversleep(n) >= 0.0
  }

  function Ceiling(x: real): int {
    -((-x).Floor)
  }

  function Minimum(a: real, b: real): real {
    if a < b then a else b
  }

  /** The most attempts that a wait allows: one per started polling interval, and one more. */
  function MaxAttempts(waitTimeout: real, pollInterval: real): int
    requires pollInterval > 0.0
  {
    Ceiling(waitTimeout / pollInterval) + 1
  }

  lemma AnotherAttemptFits(attempts: nat, waitTimeout: real, pollInterval: real)
    requires pollInterval > 0.0 && attempts as real * pollInterval < waitTimeout
    ensures attempts + 1 < MaxAttempts(waitTimeout, pollInterval)
  {
    assert attempts as real < waitTimeout / pollInterval;
  }

  /** The longest that n attempts and the polling intervals between them can take. */
  function Polling(w: World, pollInterval: real, n: nat): real {
    if n == 0 then 0.0
    else if n == 1 then w.busy(1)
    else Polling(w, pollInterval, n - 1) + pollInterval + w.oversleep(n - 1) + w.busy(n)
  }

  /** `attempts` counts the runs of the acquire script, `loads` those of the loader. */
  method GetOrLoad(waitTimeout: real, pollInterval: real, start: real, w: World)
    returns (outcome: Outcome, attempts: nat, loads: nat, end: real)
    requires waitTimeout > 0.0 && pollInterval > 0.0 && Plausible(w)
    ensures attempts <= MaxAttempts(waitTimeout, pollInterval)
    ensures loads <= 1 && (loads == 1 <==> outcome.Loaded? || outcome.LoadFailed?)
    ensures forall n :: 1 <= n < attempts ==> !w.acquired(n) && w.cached(n).None?
    ensures outcome.TimedOut? ==>
      start + waitTimeout <= end <= start + Polling(w, pollInterval, attempts) &&
      end <= start + waitTimeout + w.busy(attempts) + (if attempts >= 2 then w.oversleep(attempts - 1) else 0.0)
    ensures match outcome
            case TimedOut => attempts >= 1 && !w.acquired(attempts) && w.cached(attempts).None? && end >= start + waitTimeout
            case Cached(value) =>
              (w.cached(attempts + 1) == Some(value) && (attempts >= 1 ==> !w.acquired(attempts))) ||
              (attempts >= 1 && w.acquired(attempts) && w.rechecked == Some(value))
            case Loaded(value) =>
              attempts >= 1 && w.acquired(attempts) && w.rechecked.None? &&
              (if value.None? then w.load == Nothing else w.load == Load.Value(value.value))
            case LoadFailed => attempts >= 1 && w.acquired(attempts) && w.rechecked.None? && w.load == Error
  {
    var now := start;
    var deadline := now + waitTimeout;
    attempts, loads := 0, 0;
    AtLeastOneAttempt(waitTimeout, pollInterval);
    while true
      invariant loads == 0
      invariant forall n :: 1 <= n <= attempts ==> !w.acquired(n) && w.cached(n).None?
      invariant now >= start + attempts as real * pollInterval || now >= deadline
      invariant now <= start + if attempts == 0 then 0.0 else Polling(w, pollInterval, attempts) + pollInterval + w.oversleep(attempts)
      invariant now <= deadline + if attempts == 0 then 0.0 else w.oversleep(attempts)
      invariant attempts < MaxAttempts(waitTimeout, pollInterval)
      decreases MaxAttempts(waitTimeout, pollInterval) - attempts
    {
      var cached := w.cached(attempts + 1);
      if cached.Some? {
        return Cached(cached.value), attempts, loads, now;
      }
      attempts := attempts + 1;
      now := now + w.busy(attempts);
      if w.acquired(attempts) {
        if w.rechecked.Some? {
          return Cached(w.rechecked.value), attempts, loads, now;
        }
        loads := loads + 1;
        match w.load
        case Value(value) => return Loaded(Some(value)), attempts, loads, now;
        case Nothing => return Loaded(None), attempts, loads, now;
        case Error => return LoadFailed, attempts, loads, now;
      }
      var remaining := deadline - now;
      if remaining <= 0.0 {
        return TimedOut, attempts, loads, now;
      }
      AnotherAttemptFits(attempts - 1, waitTimeout, pollInterval);
      now := now + Minimum(pollInterval, remaining) + w.oversleep(attempts);
    }
  }

  lemma AtLeastOneAttempt(waitTimeout: real, pollInterval: real)
    requires waitTimeout > 0.0 && pollInterval > 0.0
    ensures MaxAttempts(waitTimeout, pollInterval) >= 2
  {
    assert waitTimeout / pollInterval > 0.0;
  }
}
