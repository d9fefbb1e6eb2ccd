/**
 Two pods execute the same row at once only when an execution can outlive its lock: never, if
 dispatch and execution fit the lock's time to live, and reachably so as soon as they do not.
 The executor's retry loop bounds the execution, so for each handler this comes down to one
 inequality. It holds of rows whose handler has no schedule.
 */
module LockExclusion {
  import opened Wrappers
  import opened TaskRows
  import opened TaskProtocol
  import opened TaskInvariants
  import opened LockFencing
  import Executor

  /** In microseconds: within `dispatch` of the lock the execution has started; from its start it takes at most `execution`. */
  datatype Limits = Limits(dispatch: int, execution: nat)

  type Budget = (Name, int) -> Limits

  /** The lock outlives the execution. */
  predicate Fits(budget: Budget, name: Name, timeout: int) {
    budget(name, timeout).dispatch + budget(name, timeout).execution <= (timeout + LOCK_TTL_BUFFER) * SECOND
  }

  predicate Executes(s: State, p: PodId, id: TaskId) {
    InFlight(s, p, id) && Active(s.pods[p].inFlight[id].phase)
  }

  /** Dispatched and not started for too long, or executing and started in time and not for too long. */
  predicate WithinBudget(budget: Budget, now: Time, run: Run) {
    var limits := budget(run.name, run.timeout);
    match run.phase
    case Dispatched => now < run.acquiredAt + limits.dispatch
    case Executing(startedAt) => startedAt < run.acquiredAt + limits.dispatch && now <= startedAt + limits.execution
    case _ => true
  }

  /** No execution of the row is past its budget. */
  ghost predicate OnTime(budget: Budget, s: State, id: TaskId) {
    forall p :: Executes(s, p, id) ==> WithinBudget(budget, s.now, s.pods[p].inFlight[id])
  }

  ghost predicate OnTimeRun(c: Config, budget: Budget, start: Time, run: seq<Timed>, id: TaskId)
    decreases |run|
  {
    OnTime(budget, Exec(c, Start(c, start), run), id) &&
    (run != [] ==> OnTimeRun(c, budget, start, run[..|run| - 1], id))
  }

  /** All executions of the row along the run fit their locks. */
  ghost predicate FittingRun(c: Config, budget: Budget, start: Time, run: seq<Timed>, id: TaskId)
    decreases |run|
  {
    var s := Exec(c, Start(c, start), run);
    (forall p :: InFlight(s, p, id) ==> Fits(budget, s.pods[p].inFlight[id].name, s.pods[p].inFlight[id].timeout)) &&
    (run != [] ==> FittingRun(c, budget, start, run[..|run| - 1], id))
  }

  /** Whoever still executes the row is its latest acquisition. */
  ghost predicate LatestOnly(s: State, id: TaskId) {
    forall p :: Executes(s, p, id) ==> id in s.past && s.pods[p].inFlight[id].epoch == s.past[id].acquisitions
  }

  lemma StepKeepsLatestOnly(c: Config, budget: Budget, s: State, te: Timed, id: TaskId)
    requires Inv(c, s) && PlainId(c, s, id) && LatestOnly(s, id) && OnTime(budget, Step(c, s, te), id)
    requires forall p :: InFlight(s, p, id) ==> Fits(budget, s.pods[p].inFlight[id].name, s.pods[p].inFlight[id].timeout)
    ensures LatestOnly(Step(c, s, te), id)
  {
    var n := Step(c, s, te);
    StepKeepsInv(c, s, te);
    forall p | Executes(n, p, id) ensures id in n.past && n.pods[p].inFlight[id].epoch == n.past[id].acquisitions {
      assert RunInv(c, n, p, id);
      if te.event.Acquire? && n != s {
        LatestAfterLock(c, budget, s, te, p, id);
      } else {
        PodStep(c, s, te, p);
        assert Executes(s, p, id);
        OtherAcquisitions(c, s, te, id);
      }
    }
  }

  /** The lock of an execution that is on time is not free. */
  lemma LatestAfterLock(c: Config, budget: Budget, s: State, te: Timed, p: PodId, id: TaskId)
    requires Inv(c, s) && PlainId(c, s, id) && LatestOnly(s, id) && te.event.Acquire? && Step(c, s, te) != s
    requires Executes(Step(c, s, te), p, id) && OnTime(budget, Step(c, s, te), id)
    requires forall q :: InFlight(s, q, id) ==> Fits(budget, s.pods[q].inFlight[id].name, s.pods[q].inFlight[id].timeout)
    ensures var n := Step(c, s, te); id in n.past && n.pods[p].inFlight[id].epoch == n.past[id].acquisitions
  {
    var n := Step(c, s, te);
    var q := te.event.pod;
    assert TickerInv(c, s, q);
    if InFlight(s, p, id) && n.pods[p].inFlight[id] == s.pods[p].inFlight[id] {
      assert Executes(s, p, id) && RunInv(c, s, p, id);
    }
  }

  lemma {:induction false} LatestOnlyAlways(c: Config, budget: Budget, start: Time, run: seq<Timed>, id: TaskId)
    requires OnTimeRun(c, budget, start, run, id) && FittingRun(c, budget, start, run, id)
    requires PlainId(c, Exec(c, Start(c, start), run), id)
    ensures LatestOnly(Exec(c, Start(c, start), run), id)
    decreases |run|
  {
    if run != [] {
      var shorter := run[..|run| - 1];
      if id in Exec(c, Start(c, start), shorter).past {
        PastNamesStay(c, Exec(c, Start(c, start), shorter), run[|run| - 1], id);
      }
      LatestOnlyAlways(c, budget, start, shorter, id);
      InvAlways(c, start, shorter);
      StepKeepsLatestOnly(c, budget, Exec(c, Start(c, start), shorter), run[|run| - 1], id);
    }
  }

  /** If executions keep to budgets that fit their locks, no row is ever executed by two pods at once. */
  lemma {:induction false} NeverTwoAtOnce(c: Config, budget: Budget, start: Time, run: seq<Timed>, id: TaskId, p: PodId, q: PodId)
    requires OnTimeRun(c, budget, start, run, id) && FittingRun(c, budget, start, run, id) && p != q
    requires PlainId(c, Exec(c, Start(c, start), run), id)
    ensures var s := Exec(c, Start(c, start), run); !(Executes(s, p, id) && Executes(s, q, id))
  {
    LatestOnlyAlways(c, budget, start, run, id);
    InvAlways(c, start, run);
  }

  // ---------- the budget has to fit ----------

  /** No background task is broken off. */
  predicate Unbroken(run: seq<Timed>) {
    forall k :: 0 <= k < |run| ==> !run[k].event.Abort?
  }

  /** Every background task of the row has the handler and the timeout of this entry. */
  predicate UniformAt(s: State, e: Entry) {
    forall p :: p in s.pods && e.id in s.pods[p].inFlight ==>
      s.pods[p].inFlight[e.id].name == e.name && s.pods[p].inFlight[e.id].timeout == e.timeout
  }

  ghost predicate Uniform(c: Config, start: Time, run: seq<Timed>, e: Entry)
    decreases |run|
  {
    UniformAt(Exec(c, Start(c, start), run), e) && (run != [] ==> Uniform(c, start, run[..|run| - 1], e))
  }

  ghost predicate Leads(c: Config, budget: Budget, start: Time, run: seq<Timed>, e: Entry, s: State) {
    OnTimeRun(c, budget, start, run, e.id) && Unbroken(run) && Uniform(c, start, run, e) && s == Exec(c, Start(c, start), run)
  }

  /** Some run leads to the state, unbroken and uniform, along which all executions of the row are on time. */
  ghost predicate Gets(c: Config, budget: Budget, start: Time, e: Entry, s: State) {
    exists run :: Leads(c, budget, start, run, e, s)
  }

  lemma Next(c: Config, budget: Budget, start: Time, e: Entry, s: State, te: Timed, n: State)
    requires Gets(c, budget, start, e, s) && n == Step(c, s, te) && OnTime(budget, n, e.id) && UniformAt(n, e) && !te.event.Abort?
    ensures Gets(c, budget, start, e, n)
  {
    var run :| Leads(c, budget, start, run, e, s);
    var longer := run + [te];
    ExecSnoc(c, Start(c, start), run, te);
    assert longer[..|longer| - 1] == run;
    assert Leads(c, budget, start, longer, e, n);
  }

  /** The type of the rows that are submitted for the handler. */
  function KindOf(c: Config, name: Name): TaskType {
    if name in c.cooldowns then Triggered else Oneshot
  }

  /** The cap that a tick looks at, if the handler has one, admits a row. */
  predicate Admitted(c: Config, name: Name) {
    name in c.caps && name !in c.cooldowns ==> c.caps[name] >= 1
  }

  /** Two pods that know such a handler. */
  predicate TwoWorkers(c: Config, p: PodId, q: PodId, name: Name) {
    p != q && p in c.pods && q in c.pods && (p, name) in c.registered && (q, name) in c.registered && Admitted(c, name)
  }

  /** Nothing but one pending row, which the given entry lists. */
  predicate OneRow(c: Config, s: State, e: Entry) {
    s.pods.Keys == c.pods && s.rows.Keys == {e.id} && s.past.Keys == {e.id} &&
    s.rows[e.id].name == e.name && s.rows[e.id].kind == KindOf(c, e.name) &&
    s.rows[e.id].status == Pending && s.rows[e.id].maxRuns.None? && s.rows[e.id].owner.None? &&
    (e.name in c.cooldowns ==> Dirty(s.rows[e.id]) && s.rows[e.id].requestAt.value <= s.now) &&
    s.past[e.id] == Past(KindOf(c, e.name), e.name, 0, s.past[e.id].lastSubmit, {}) &&
    e == EntryOf(e.id, s.rows[e.id]) && forall p :: p in s.pods ==> s.pods[p].inFlight == map[]
  }

  function Submission(c: Config, e: Entry, key: Name): Event {
    if e.name in c.cooldowns then SubmitTriggered(e.id, e.name, key, e.timeout, None) else SubmitOneshot(e.id, e.name, Some(key), e.timeout, None)
  }

  lemma Submitted(c: Config, budget: Budget, start: Time, e: Entry, key: Name) returns (s: State)
    requires e.timeout > 0
    ensures Gets(c, budget, start, e, s) && OneRow(c, s, e) && s.rows[e.id].biz == Some(key) && s.rows[e.id].runAt.None? && forall p :: p in s.pods ==> s.pods[p] == IDLE
  {
    var first := Start(c, start);
    assert Leads(c, budget, start, [], e, first);
    s := Step(c, first, Timed(start + 1, Submission(c, e, key)));
    assert OnTime(budget, first, e.id);
    Next(c, budget, start, e, first, Timed(start + 1, Submission(c, e, key)), s);
  }

  /** About to lock the row: inspected and, if a cap applies to it, counted. */
  function ReadyPod(c: Config, listedAt: Time, entry: Entry): Pod {
    Pod(Ticker(KindOf(c, entry.name), listedAt, [entry], if entry.name in c.caps && entry.name !in c.cooldowns then Cleared else Inspected),
        map[], map[])
  }

  /** An idle pod lists the row and finds nothing against it. */
  lemma ListsAndInspects(c: Config, budget: Budget, start: Time, s: State, p: PodId, e: Entry) returns (n: State)
    requires Gets(c, budget, start, e, s) && OneRow(c, s, e) && p in s.pods && s.pods[p] == IDLE
    requires (p, e.name) in c.registered && Admitted(c, e.name)
    ensures Gets(c, budget, start, e, n) && OneRow(c, n, e) && s.now + 1 < n.now && n.rows == s.rows
    ensures n.pods == s.pods[p := ReadyPod(c, s.now + 1, e)]
  {
    n := Inspects(c, budget, start, s, p, e);
    if e.name in c.caps && e.name !in c.cooldowns {
      var i := n;
      n := CountsNothing(c, budget, start, i, p, e);
      assert n.pods == s.pods[p := n.pods[p]];
    }
  }

  lemma Inspects(c: Config, budget: Budget, start: Time, s: State, p: PodId, e: Entry) returns (n: State)
    requires Gets(c, budget, start, e, s) && OneRow(c, s, e) && p in s.pods && s.pods[p] == IDLE
    requires (p, e.name) in c.registered && Admitted(c, e.name)
    ensures Gets(c, budget, start, e, n) && OneRow(c, n, e) && n.now == s.now + 2 && n.rows == s.rows
    ensures n.pods == s.pods[p := Pod(Ticker(KindOf(c, e.name), s.now + 1, [e], Inspected), map[], map[])]
  {
    var m := Lists(c, s, p, e);
    Next(c, budget, start, e, s, Timed(s.now + 1, List(p, KindOf(c, e.name), [e])), m);
    assert LocalIds(m.pods[p], e.name) == {};
    InspectStep(c, m, s.now + 2, p);
    n := Advance(m, p, Inspected).(now := s.now + 2);
    Next(c, budget, start, e, m, Timed(s.now + 2, Inspect(p)), n);
    assert n.pods == s.pods[p := n.pods[p]];
  }

  lemma CountsNothing(c: Config, budget: Budget, start: Time, s: State, p: PodId, e: Entry) returns (n: State)
    requires Gets(c, budget, start, e, s) && OneRow(c, s, e) && p in s.pods && e.name in c.caps && c.caps[e.name] >= 1
    requires s.pods[p].ticker.kind == Oneshot && s.pods[p].ticker.queue == [e] && s.pods[p].ticker.stage == Inspected
    ensures Gets(c, budget, start, e, n) && OneRow(c, n, e) && n.now == s.now + 1 && n.rows == s.rows
    ensures n.pods == s.pods[p := s.pods[p].(ticker := s.pods[p].ticker.(stage := Cleared))]
  {
    assert LiveIds(s.rows, e.name, s.now + 1) == {};
    CountStep(c, s, s.now + 1, p);
    n := Advance(s, p, Cleared).(now := s.now + 1);
    Next(c, budget, start, e, s, Timed(s.now + 1, CountRunning(p)), n);
  }

  lemma Lists(c: Config, s: State, p: PodId, e: Entry) returns (n: State)
    requires OneRow(c, s, e) && p in s.pods && s.pods[p] == IDLE
    ensures n == Step(c, s, Timed(s.now + 1, List(p, KindOf(c, e.name), [e])))
    ensures n == SetTicker(s, p, Ticker(KindOf(c, e.name), s.now + 1, [e], Fresh)).(now := s.now + 1)
  {
    assert IsListing(s.rows, KindOf(c, e.name), s.now + 1, [e]) by { assert [e][0].id == e.id; }
    ListStep(c, s, s.now + 1, p, KindOf(c, e.name), [e]);
    n := SetTicker(s, p, Ticker(KindOf(c, e.name), s.now + 1, [e], Fresh)).(now := s.now + 1);
  }

  /** Enough time to start and to run at all, but more than the lock allows. */
  predicate TooMuch(budget: Budget, e: Entry) {
    e.timeout > 0 && budget(e.name, e.timeout).dispatch >= 2 && budget(e.name, e.timeout).execution >= 1 && !Fits(budget, e.name, e.timeout)
  }

  function Expiry(acquiredAt: Time, e: Entry): Time {
    acquiredAt + (e.timeout + LOCK_TTL_BUFFER) * SECOND
  }

  /** As late as the budget allows, but before the lock expires. */
  function LatestStart(budget: Budget, acquiredAt: Time, e: Entry): Time {
    var late := acquiredAt + budget(e.name, e.timeout).dispatch - 1;
    if late < Expiry(acquiredAt, e) then late else Expiry(acquiredAt, e) - 1
  }

  /** This pod alone runs the row, in the given phase; the other still holds the entry that it inspected before. */
  predicate OneRuns(c: Config, s: State, p: PodId, q: PodId, e: Entry, acquiredAt: Time, listedAt: Time, phase: Phase) {
    && p != q && p in s.pods && q in s.pods && s.pods[q] == ReadyPod(c, listedAt, e)
    && e.id in s.rows && s.rows[e.id].expireAt == Some(Expiry(acquiredAt, e)) && s.rows[e.id].kind == KindOf(c, e.name) && s.rows[e.id].name == e.name
    && e.id in s.past && s.pods[p].cron == map[]
    && (forall r :: r in s.pods && r != p ==> s.pods[r].inFlight == map[])
    && s.pods[p].inFlight.Keys == {e.id}
    && s.pods[p].inFlight[e.id] == Run(KindOf(c, e.name), e.name, e.timeout, s.past[e.id].acquisitions, s.pods[p].inFlight[e.id].listedAt, acquiredAt, phase)
  }

  lemma OneLocks(c: Config, budget: Budget, start: Time, s: State, p: PodId, q: PodId, e: Entry, first: Time, second: Time) returns (n: State)
    requires Gets(c, budget, start, e, s) && OneRow(c, s, e) && p != q && p in s.pods && q in s.pods
    requires s.pods[p] == ReadyPod(c, first, e) && s.pods[q] == ReadyPod(c, second, e) && TooMuch(budget, e)
    ensures Gets(c, budget, start, e, n) && OneRuns(c, n, p, q, e, n.now, second, Dispatched) && n.rows[e.id].biz == s.rows[e.id].biz
  {
    AcquireStep(c, s, s.now + 1, p);
    n := AfterAcquire(s, s.now + 1, p).(now := s.now + 1);
    forall r | Executes(n, r, e.id) ensures WithinBudget(budget, n.now, n.pods[r].inFlight[e.id]) {
      assert r == p;
    }
    Next(c, budget, start, e, s, Timed(s.now + 1, Acquire(p)), n);
  }

  lemma OneBegins(c: Config, budget: Budget, start: Time, s: State, p: PodId, q: PodId, e: Entry, listedAt: Time) returns (n: State)
    requires Gets(c, budget, start, e, s) && OneRuns(c, s, p, q, e, s.now, listedAt, Dispatched) && TooMuch(budget, e)
    ensures Gets(c, budget, start, e, n) && OneRuns(c, n, p, q, e, s.now, listedAt, Executing(n.now))
    ensures n.now == LatestStart(budget, s.now, e) && n.rows == s.rows
  {
    var t := LatestStart(budget, s.now, e);
    BeginStep(c, s, t, p, e.id);
    n := SetPhase(s, p, e.id, Executing(t)).(now := t);
    forall r | Executes(n, r, e.id) ensures WithinBudget(budget, n.now, n.pods[r].inFlight[e.id]) {
      assert r == p;
    }
    Next(c, budget, start, e, s, Timed(t, Begin(p, e.id)), n);
  }

  /** The second pod tries the lock at the instant it expires. */
  lemma OtherLocks(c: Config, budget: Budget, start: Time, s: State, p: PodId, q: PodId, e: Entry, acquiredAt: Time, listedAt: Time)
    returns (n: State)
    requires Gets(c, budget, start, e, s) && OneRuns(c, s, p, q, e, acquiredAt, listedAt, Executing(s.now)) && TooMuch(budget, e)
    requires s.now == LatestStart(budget, acquiredAt, e)
    ensures Gets(c, budget, start, e, n) && Executes(n, p, e.id) && Executes(n, q, e.id)
    ensures OwnedBy(n.rows, e.id, q) && n.rows[e.id].name == e.name && n.rows[e.id].biz == s.rows[e.id].biz && n.pods[p] == s.pods[p]
    ensures e.id in n.past && n.pods[p].inFlight[e.id] == s.pods[p].inFlight[e.id] && n.pods[p].inFlight[e.id].epoch < n.past[e.id].acquisitions
  {
    var t := Expiry(acquiredAt, e);
    AcquireStep(c, s, t, q);
    n := AfterAcquire(s, t, q).(now := t);
    assert n.pods[p] == s.pods[p] && n.pods[q].inFlight[e.id].acquiredAt == t;
    forall r | Executes(n, r, e.id) ensures WithinBudget(budget, n.now, n.pods[r].inFlight[e.id]) {
      assert r == p || r == q;
    }
    Next(c, budget, start, e, s, Timed(t, Acquire(q)), n);
  }

  lemma Overlaps(c: Config, budget: Budget, start: Time, p: PodId, q: PodId, e: Entry, key: Name) returns (n: State)
    requires TwoWorkers(c, p, q, e.name) && TooMuch(budget, e)
    ensures Gets(c, budget, start, e, n) && Executes(n, p, e.id) && Executes(n, q, e.id)
    ensures OwnedBy(n.rows, e.id, q) && TakenOver(n, p, e.id) && n.rows[e.id].name == e.name && n.rows[e.id].biz == Some(key)
    ensures n.pods[p].inFlight[e.id].phase.Executing? && n.pods[p].inFlight[e.id].kind == KindOf(c, e.name) && n.pods[p].inFlight[e.id].name == e.name
    ensures n.pods[p].cron == map[]
  {
    var s1 := Submitted(c, budget, start, e, key);
    var s2 := ListsAndInspects(c, budget, start, s1, p, e);
    var s3 := ListsAndInspects(c, budget, start, s2, q, e);
    var s4 := OneLocks(c, budget, start, s3, p, q, e, s1.now + 1, s2.now + 1);
    var s5 := OneBegins(c, budget, start, s4, p, q, e, s2.now + 1);
    n := OtherLocks(c, budget, start, s5, p, q, e, s4.now, s2.now + 1);
  }

  /**
   As soon as a budget exceeds the lock's time to live, two pods can execute the row at once
   although every execution keeps to its budget: the second pod listed the row before the
   first one locked it, and tries the lock at the instant it expires.
   */
  lemma OverlapOtherwise(c: Config, budget: Budget, start: Time, p: PodId, q: PodId, id: TaskId, name: Name, timeout: int)
    requires TwoWorkers(c, p, q, name) && TooMuch(budget, Entry(id, name, timeout))
    ensures exists run ::
      (OnTimeRun(c, budget, start, run, id) &&
       Executes(Exec(c, Start(c, start), run), p, id) && Executes(Exec(c, Start(c, start), run), q, id))
  {
    var e := Entry(id, name, timeout);
    var n := Overlaps(c, budget, start, p, q, e, "key");
    var run :| Leads(c, budget, start, run, e, n);
  }

  // ---------- the executor's budget ----------

  datatype Policy = Policy(maxRuns: nat, backoff: Executor.Backoff)

  /** Some seconds to dispatch a run and to notice its end, and what the executor's retry loop guarantees. */
  function ExecutorBudget(policies: Name -> Policy, overhead: nat): Budget {
    (name: Name, timeout: int) => Limits(
      overhead * SECOND,
      Executor.ExecutionBound(policies(name).maxRuns, if timeout >= 0 then timeout else 0, policies(name).backoff) * SECOND)
  }

  /** The retries, their backoffs and the overhead fit the lock's buffer. */
  predicate RetriesFit(policy: Policy, overhead: nat, timeout: int) {
    policy.maxRuns >= 1 && timeout >= 0 &&
    (policy.maxRuns - 1) * timeout + Executor.BackoffSum(policy.backoff, policy.maxRuns) + overhead <= LOCK_TTL_BUFFER
  }

  /** An execution fits its lock just when everything but one timeout fits the lock's buffer. */
  lemma ExecutionFitsTheLock(policies: Name -> Policy, overhead: nat, name: Name, timeout: nat)
    requires policies(name).maxRuns >= 1
    ensures Fits(ExecutorBudget(policies, overhead), name, timeout) <==> RetriesFit(policies(name), overhead, timeout)
  {
    var n := policies(name).maxRuns;
    var bound := Executor.ExecutionBound(n, timeout, policies(name).backoff);
    assert ExecutorBudget(policies, overhead)(name, timeout) == Limits(overhead * SECOND, bound * SECOND);
    assert n * timeout == (n - 1) * timeout + timeout;
    InSeconds(overhead + bound, timeout + LOCK_TTL_BUFFER);
  }

  lemma InSeconds(a: int, b: int)
    ensures a * SECOND <= b * SECOND <==> a <= b
  {
  }

  /** Along the run, every run of the row has retries that fit. */
  ghost predicate RetriesFitAlong(c: Config, policies: Name -> Policy, overhead: nat, start: Time, run: seq<Timed>, id: TaskId)
    decreases |run|
  {
    var s := Exec(c, Start(c, start), run);
    (forall p :: InFlight(s, p, id) ==> RetriesFit(policies(s.pods[p].inFlight[id].name), overhead, s.pods[p].inFlight[id].timeout)) &&
    (run != [] ==> RetriesFitAlong(c, policies, overhead, start, run[..|run| - 1], id))
  }

  lemma {:induction false} RetriesThatFit(c: Config, policies: Name -> Policy, overhead: nat, start: Time, run: seq<Timed>, id: TaskId)
    requires RetriesFitAlong(c, policies, overhead, start, run, id)
    ensures FittingRun(c, ExecutorBudget(policies, overhead), start, run, id)
    decreases |run|
  {
    var s := Exec(c, Start(c, start), run);
    forall p | InFlight(s, p, id)
      ensures Fits(ExecutorBudget(policies, overhead), s.pods[p].inFlight[id].name, s.pods[p].inFlight[id].timeout)
    {
      ExecutionFitsTheLock(policies, overhead, s.pods[p].inFlight[id].name, s.pods[p].inFlight[id].timeout);
    }
    if run != [] {
      RetriesThatFit(c, policies, overhead, start, run[..|run| - 1], id);
    }
  }

  lemma {:induction false} UniformFits(c: Config, policies: Name -> Policy, overhead: nat, start: Time, run: seq<Timed>, e: Entry)
    requires Uniform(c, start, run, e) && RetriesFit(policies(e.name), overhead, e.timeout)
    ensures RetriesFitAlong(c, policies, overhead, start, run, e.id)
    decreases |run|
  {
    if run != [] {
      UniformFits(c, policies, overhead, start, run[..|run| - 1], e);
    }
  }

  /**
   If the retries, the backoffs and some seconds of overhead fit 60 seconds, executions start
   within the overhead of their lock and take no longer than the retry loop guarantees, then no
   two pods ever execute the row at once.
   */
  lemma {:induction false} ExecutionsNeverOverlap(c: Config, policies: Name -> Policy, overhead: nat, start: Time, run: seq<Timed>,
                                                  id: TaskId, p: PodId, q: PodId)
    requires RetriesFitAlong(c, policies, overhead, start, run, id)
    requires OnTimeRun(c, ExecutorBudget(policies, overhead), start, run, id)
    requires PlainId(c, Exec(c, Start(c, start), run), id) && p != q
    ensures var s := Exec(c, Start(c, start), run); !(Executes(s, p, id) && Executes(s, q, id))
  {
    RetriesThatFit(c, policies, overhead, start, run, id);
    NeverTwoAtOnce(c, ExecutorBudget(policies, overhead), start, run, id, p, q);
  }

  /** And if they do not fit, two pods can, although both executions keep to what the retry loop guarantees. */
  lemma {:induction false} ExecutionsOverlapOtherwise(c: Config, policies: Name -> Policy, overhead: nat, start: Time, p: PodId, q: PodId,
                                                      id: TaskId, name: Name, timeout: nat)
    requires TwoWorkers(c, p, q, name) && timeout > 0 && overhead > 0 && policies(name).maxRuns >= 1
    requires !RetriesFit(policies(name), overhead, timeout)
    ensures exists run ::
      (OnTimeRun(c, ExecutorBudget(policies, overhead), start, run, id) &&
       Executes(Exec(c, Start(c, start), run), p, id) && Executes(Exec(c, Start(c, start), run), q, id))
  {
    ExecutionFitsTheLock(policies, overhead, name, timeout);
    SomeTime(policies(name), timeout);
    OverlapOtherwise(c, ExecutorBudget(policies, overhead), start, p, q, id, name, timeout);
  }

  lemma SomeTime(policy: Policy, timeout: nat)
    requires policy.maxRuns >= 1 && timeout > 0
    ensures Executor.ExecutionBound(policy.maxRuns, timeout, policy.backoff) >= 1
  {
    assert policy.maxRuns * timeout >= 1 * timeout;
  }

  // ---------- the unguarded deletion, from the start ----------

  /**
   With a retention of zero for one of the outcomes, the first of two overlapping executions
   that ends with it deletes the row, while the second executes on.
   */
  lemma {:induction false} DeletedUnderTheSuccessor(c: Config, start: Time, p: PodId, q: PodId, id: TaskId, name: Name, timeout: int, ok: bool)
    requires TwoWorkers(c, p, q, name) && timeout > 0 && name !in c.cooldowns && DeletesAtOnce(c.retention, ok)
    ensures exists run ::
      (var s := Exec(c, Start(c, start), run); id in s.past && id !in s.rows && Executes(s, q, id))
  {
    var e := Entry(id, name, timeout);
    var budget := (n: Name, t: int) => Limits(2, if t >= 0 then (t + LOCK_TTL_BUFFER) * SECOND else 0);
    var s := Overlaps(c, budget, start, p, q, e, "key");
    var run :| Leads(c, budget, start, run, e, s);
    var after := OvertakenRunDeletesTheRow(c, s, p, q, id, ok);
    ExecConcat(c, Start(c, start), run, after);
    PastStays(c, s, after, id);
    assert Executes(Exec(c, Start(c, start), run + after), q, id);
  }

  lemma {:induction false} PastStays(c: Config, s: State, after: seq<Timed>, id: TaskId)
    requires id in s.past
    ensures id in Exec(c, s, after).past
    decreases |after|
  {
    if after != [] {
      PastStays(c, s, after[..|after| - 1], id);
      PastNamesStay(c, Exec(c, s, after[..|after| - 1]), after[|after| - 1], id);
    }
  }
}
