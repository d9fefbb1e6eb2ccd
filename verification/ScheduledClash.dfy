/**
 A handler that runs on a schedule can also be submitted: only putting `@oneshot` or `@trigger`
 on top of a schedule is rejected. The scheduled runner records and releases `WHERE task_name = ?
 AND owner = ?`, so it also writes the other rows of the same handler that its pod owns; and it
 locks the row that has its own key, whoever submitted it. Ten guarantees about locks,
 executions and triggers therefore hold exactly for handlers without a schedule.
 */
module ScheduledClash {
  import opened Wrappers
  import opened TaskRows
  import opened TaskProtocol
  import opened TaskInvariants
  import opened LockFencing
  import opened LockExclusion
  import opened OneshotTasks
  import opened StrayRows
  import Rerun = RerunLimit
  import Cap = CapLimit
  import Triggers = TriggeredTasks
  import Listings

  /** A pod that knows the handler; a cap, if it looks at one, admits a row. */
  predicate Worker(c: Config, p: PodId, name: Name) {
    p in c.pods && (p, name) in c.registered && Admitted(c, name)
  }

  /** At least a second for the dispatch and for the execution. */
  predicate Generous(budget: Budget, e: Entry) {
    e.timeout > 0 && budget(e.name, e.timeout).dispatch >= SECOND && budget(e.name, e.timeout).execution >= SECOND
  }

  /** Only this pod executes anything: the row, for less than a second so far. */
  predicate Alone(s: State, p: PodId, e: Entry) {
    && InFlight(s, p, e.id) && s.pods[p].inFlight.Keys == {e.id} && Executes(s, p, e.id)
    && s.pods[p].inFlight[e.id].name == e.name && s.pods[p].inFlight[e.id].timeout == e.timeout
    && s.pods[p].inFlight[e.id].acquiredAt <= s.now < s.pods[p].inFlight[e.id].acquiredAt + SECOND
    && (s.pods[p].inFlight[e.id].phase.Executing? ==>
          s.pods[p].inFlight[e.id].acquiredAt <= s.pods[p].inFlight[e.id].phase.startedAt <= s.now)
    && forall r :: r in s.pods && r != p ==> s.pods[r].inFlight == map[]
  }

  lemma AloneIsOnTime(budget: Budget, s: State, p: PodId, e: Entry)
    requires Alone(s, p, e) && Generous(budget, e)
    ensures OnTime(budget, s, e.id)
  {
    forall r | Executes(s, r, e.id) ensures WithinBudget(budget, s.now, s.pods[r].inFlight[e.id]) {
      assert r == p;
    }
  }

  /** The row and, under another id, the row of the schedule. */
  predicate TwoRows(c: Config, s: State, e: Entry) {
    && e.id in s.rows && s.rows[e.id].name == e.name && s.rows[e.id].kind == KindOf(c, e.name)
    && e.id in s.past && s.past[e.id].name == e.name
    && forall id :: id in s.rows && id != e.id ==> ScheduledFor(s.rows[id], e.name) && s.rows[id].kind == Scheduled
  }

  // ---------- the steps ----------

  lemma Locks(c: Config, budget: Budget, start: Time, s: State, p: PodId, e: Entry, listedAt: Time) returns (n: State)
    requires Gets(c, budget, start, e, s) && TwoRows(c, s, e) && p in s.pods && s.pods[p].(cron := map[]) == ReadyPod(c, listedAt, e)
    requires Generous(budget, e) && LockFree(s.rows[e.id], s.now + 1)
    requires forall r :: r in s.pods ==> s.pods[r].inFlight == map[]
    ensures Gets(c, budget, start, e, n) && TwoRows(c, n, e) && Alone(n, p, e) && n.now == s.now + 1
    ensures n.pods[p].inFlight[e.id].acquiredAt == n.now && n.pods[p].inFlight[e.id].phase == Dispatched
    ensures Current(n, e.id, n.pods[p].inFlight[e.id]) && n.rows == s.rows[e.id := Locked(s.rows[e.id], p, n.now, e.timeout + LOCK_TTL_BUFFER)]
    ensures n.pods.Keys == s.pods.Keys && n.pods[p].cron == s.pods[p].cron && n.past.Keys == s.past.Keys && n.pods[p].ticker.queue == []
    ensures forall r :: r in s.pods && r != p ==> n.pods[r] == s.pods[r]
  {
    AcquireStep(c, s, s.now + 1, p);
    n := AfterAcquire(s, s.now + 1, p).(now := s.now + 1);
    AloneIsOnTime(budget, n, p, e);
    Next(c, budget, start, e, s, Timed(s.now + 1, Acquire(p)), n);
  }

  lemma Begins(c: Config, budget: Budget, start: Time, s: State, p: PodId, e: Entry) returns (n: State)
    requires Gets(c, budget, start, e, s) && TwoRows(c, s, e) && Alone(s, p, e) && Generous(budget, e)
    requires s.pods[p].inFlight[e.id].phase == Dispatched && s.now + 1 < s.pods[p].inFlight[e.id].acquiredAt + SECOND
    requires Current(s, e.id, s.pods[p].inFlight[e.id])
    ensures Gets(c, budget, start, e, n) && TwoRows(c, n, e) && Alone(n, p, e) && n.now == s.now + 1
    ensures n.pods[p].inFlight[e.id] == s.pods[p].inFlight[e.id].(phase := Executing(n.now)) && Current(n, e.id, n.pods[p].inFlight[e.id])
    ensures n.rows == s.rows && n.past == s.past && n.pods.Keys == s.pods.Keys && n.pods[p] == s.pods[p].(inFlight := n.pods[p].inFlight)
    ensures forall r :: r in s.pods && r != p ==> n.pods[r] == s.pods[r]
  {
    BeginStep(c, s, s.now + 1, p, e.id);
    n := SetPhase(s, p, e.id, Executing(s.now + 1)).(now := s.now + 1);
    AloneIsOnTime(budget, n, p, e);
    Next(c, budget, start, e, s, Timed(s.now + 1, Begin(p, e.id)), n);
  }

  /** The pod runs the handler's schedule as well: nobody executes the row, or this pod does. */
  predicate Undisturbed(s: State, p: PodId, e: Entry) {
    Alone(s, p, e) || forall r :: r in s.pods ==> s.pods[r].inFlight == map[]
  }

  lemma UndisturbedIsOnTime(budget: Budget, s: State, p: PodId, e: Entry)
    requires Undisturbed(s, p, e) && Generous(budget, e)
    ensures OnTime(budget, s, e.id)
  {
    if Alone(s, p, e) {
      AloneIsOnTime(budget, s, p, e);
    }
  }

  /** What a step of the schedule leaves as it was. */
  predicate SameTasks(s: State, n: State, p: PodId, e: Entry) {
    && n.pods.Keys == s.pods.Keys && n.now == s.now + 1
    && (forall r :: r in s.pods ==> n.pods[r].ticker == s.pods[r].ticker && n.pods[r].inFlight == s.pods[r].inFlight && (r != p ==> n.pods[r] == s.pods[r]))
    && e.id in s.past && e.id in n.past && n.past[e.id] == s.past[e.id]
  }

  lemma ScheduleLocks(c: Config, budget: Budget, start: Time, s: State, p: PodId, e: Entry, other: TaskId) returns (n: State)
    requires Gets(c, budget, start, e, s) && TwoRows(c, s, e) && Generous(budget, e) && e.name in c.scheduled
    requires p in s.pods && s.pods[p].cron == map[] && s.rows.Keys == {e.id} && s.rows[e.id].biz != Some(SCHEDULED_BIZ_NAME) && other !in s.past
    requires Undisturbed(s, p, e) && Undisturbed(s.(now := s.now + 1), p, e)
    ensures Gets(c, budget, start, e, n) && TwoRows(c, n, e) && SameTasks(s, n, p, e) && Undisturbed(n, p, e)
    ensures n.rows == s.rows[other := ScheduledRow(e.name, p, n.now, 1)] && n.pods[p].cron == map[e.name := CronRun(n.now, false)]
  {
    CronStepped(c, s, s.now + 1, p, e.name, Lock(other, 1));
    n := AfterCron(s, s.now + 1, p, e.name, Lock(other, 1)).(now := s.now + 1);
    UndisturbedIsOnTime(budget, n, p, e);
    Next(c, budget, start, e, s, Timed(s.now + 1, Cron(p, e.name, Lock(other, 1))), n);
  }

  lemma ScheduleReports(c: Config, budget: Budget, start: Time, s: State, p: PodId, e: Entry, outcome: Outcome) returns (n: State)
    requires Gets(c, budget, start, e, s) && TwoRows(c, s, e) && Generous(budget, e) && e.name in c.scheduled
    requires p in s.pods && e.name in s.pods[p].cron && !s.pods[p].cron[e.name].reported && outcome.ok
    requires s.pods[p].cron[e.name].acquiredAt < outcome.startedAt <= s.now
    requires Undisturbed(s, p, e) && Undisturbed(s.(now := s.now + 1), p, e)
    ensures Gets(c, budget, start, e, n) && TwoRows(c, n, e) && SameTasks(s, n, p, e) && Undisturbed(n, p, e)
    ensures n.rows.Keys == s.rows.Keys && n.pods[p].cron.Keys == s.pods[p].cron.Keys
    ensures n.rows[e.id] == if s.rows[e.id].owner == Some(p) then Recorded(s.rows[e.id], Reported(outcome)) else s.rows[e.id]
  {
    CronStepped(c, s, s.now + 1, p, e.name, Report(outcome));
    n := AfterCron(s, s.now + 1, p, e.name, Report(outcome)).(now := s.now + 1);
    UndisturbedIsOnTime(budget, n, p, e);
    Next(c, budget, start, e, s, Timed(s.now + 1, Cron(p, e.name, Report(outcome))), n);
  }

  lemma ScheduleUnlocks(c: Config, budget: Budget, start: Time, s: State, p: PodId, e: Entry) returns (n: State)
    requires Gets(c, budget, start, e, s) && TwoRows(c, s, e) && Generous(budget, e) && e.name in c.scheduled
    requires p in s.pods && e.name in s.pods[p].cron
    requires Undisturbed(s, p, e) && Undisturbed(s.(now := s.now + 1), p, e)
    ensures Gets(c, budget, start, e, n) && TwoRows(c, n, e) && SameTasks(s, n, p, e) && Undisturbed(n, p, e)
    ensures n.rows[e.id] == if s.rows[e.id].owner == Some(p) then Unlocked(s.rows[e.id]) else s.rows[e.id]
  {
    CronStepped(c, s, s.now + 1, p, e.name, Unlock);
    n := AfterCron(s, s.now + 1, p, e.name, Unlock).(now := s.now + 1);
    UndisturbedIsOnTime(budget, n, p, e);
    Next(c, budget, start, e, s, Timed(s.now + 1, Cron(p, e.name, Unlock)), n);
  }

  // ---------- the runs ----------

  function Seconds(n: nat): Budget {
    (name: Name, timeout: int) => Limits(n * SECOND, n * SECOND)
  }

  /** The row is submitted and inspected, and the handler's schedule starts on the same pod. */
  lemma BothDue(c: Config, budget: Budget, start: Time, p: PodId, e: Entry) returns (n: State, listedAt: Time)
    requires Worker(c, p, e.name) && e.name in c.scheduled && Generous(budget, e)
    ensures Gets(c, budget, start, e, n) && TwoRows(c, n, e) && n.rows[e.id].status == Pending && n.rows[e.id].owner.None?
    ensures n.rows[e.id].biz == Some("key") && n.rows[e.id].runAt.None?
    ensures p in n.pods && n.pods[p] == ReadyPod(c, listedAt, e).(cron := map[e.name := CronRun(n.now, false)])
    ensures forall r :: r in n.pods ==> n.pods[r].inFlight == map[]
  {
    var s1 := Submitted(c, budget, start, e, "key");
    var s2 := ListsAndInspects(c, budget, start, s1, p, e);
    n := ScheduleLocks(c, budget, start, s2, p, e, e.id + 1);
    listedAt := s1.now + 1;
  }

  /** In the middle of its execution the row is marked as a success, and then loses its lock. */
  lemma RecordedInTheMiddle(c: Config, budget: Budget, start: Time, p: PodId, e: Entry) returns (n: State)
    requires Worker(c, p, e.name) && e.name in c.scheduled && Generous(budget, e)
    ensures Gets(c, budget, start, e, n) && TwoRows(c, n, e) && Alone(n, p, e) && Current(n, e.id, n.pods[p].inFlight[e.id])
    ensures n.rows[e.id].status == Success && n.rows[e.id].owner.None?
  {
    var s1, listedAt := BothDue(c, budget, start, p, e);
    n := EndsInTheMiddle(c, budget, start, s1, p, e, listedAt);
  }

  lemma EndsInTheMiddle(c: Config, budget: Budget, start: Time, s: State, p: PodId, e: Entry, listedAt: Time) returns (n: State)
    requires Gets(c, budget, start, e, s) && TwoRows(c, s, e) && s.rows[e.id].owner.None? && Worker(c, p, e.name)
    requires e.name in c.scheduled && Generous(budget, e)
    requires p in s.pods && s.pods[p].(cron := map[]) == ReadyPod(c, listedAt, e)
    requires e.name in s.pods[p].cron && s.pods[p].cron[e.name].acquiredAt <= s.now && !s.pods[p].cron[e.name].reported
    requires forall r :: r in s.pods ==> s.pods[r].inFlight == map[]
    ensures Gets(c, budget, start, e, n) && TwoRows(c, n, e) && Alone(n, p, e) && Current(n, e.id, n.pods[p].inFlight[e.id])
    ensures n.rows[e.id].status == Success && n.rows[e.id].owner.None? && n.now == s.now + 4
    ensures n.pods.Keys == s.pods.Keys && n.pods[p].inFlight[e.id].acquiredAt == s.now + 1
    ensures forall r :: r in s.pods && r != p ==> n.pods[r] == s.pods[r]
  {
    var m := StartsToExecute(c, budget, start, s, p, e, listedAt);
    n := ScheduleEnds(c, budget, start, m, p, e);
  }

  /** The schedule reports and releases while its pod executes the row. */
  lemma ScheduleEnds(c: Config, budget: Budget, start: Time, s: State, p: PodId, e: Entry) returns (n: State)
    requires Gets(c, budget, start, e, s) && TwoRows(c, s, e) && s.rows[e.id].owner == Some(p) && Generous(budget, e) && e.name in c.scheduled
    requires Alone(s, p, e) && s.now + 2 < s.pods[p].inFlight[e.id].acquiredAt + SECOND && Current(s, e.id, s.pods[p].inFlight[e.id])
    requires e.name in s.pods[p].cron && s.pods[p].cron[e.name].acquiredAt < s.now && !s.pods[p].cron[e.name].reported
    ensures Gets(c, budget, start, e, n) && TwoRows(c, n, e) && Alone(n, p, e) && n.rows[e.id].status == Success && n.rows[e.id].owner.None?
    ensures n.now == s.now + 2 && n.pods.Keys == s.pods.Keys && n.pods[p].inFlight == s.pods[p].inFlight && n.past[e.id] == s.past[e.id]
    ensures forall r :: r in s.pods && r != p ==> n.pods[r] == s.pods[r]
  {
    var m := ScheduleReports(c, budget, start, s, p, e, Outcome(true, s.now, "", 1));
    n := ScheduleUnlocks(c, budget, start, m, p, e);
  }

  lemma StartsToExecute(c: Config, budget: Budget, start: Time, s: State, p: PodId, e: Entry, listedAt: Time) returns (n: State)
    requires Gets(c, budget, start, e, s) && TwoRows(c, s, e) && s.rows[e.id].owner.None? && Worker(c, p, e.name) && Generous(budget, e)
    requires p in s.pods && s.pods[p].(cron := map[]) == ReadyPod(c, listedAt, e)
    requires forall r :: r in s.pods ==> s.pods[r].inFlight == map[]
    ensures Gets(c, budget, start, e, n) && TwoRows(c, n, e) && Alone(n, p, e) && Current(n, e.id, n.pods[p].inFlight[e.id])
    ensures n.rows[e.id].owner == Some(p) && n.now == s.now + 2 && n.pods[p].inFlight[e.id].phase == Executing(n.now)
    ensures n.rows[e.id].requestAt == s.rows[e.id].requestAt && n.rows[e.id].timeout == s.rows[e.id].timeout && n.pods[p].ticker.queue == []
    ensures n.pods.Keys == s.pods.Keys && n.pods[p].inFlight[e.id].acquiredAt == s.now + 1 && n.pods[p].cron == s.pods[p].cron
    ensures forall r :: r in s.pods && r != p ==> n.pods[r] == s.pods[r]
  {
    var m := Locks(c, budget, start, s, p, e, listedAt);
    n := Begins(c, budget, start, m, p, e);
  }

  /** Locked between the record and the release of the schedule, the row ends as running without a lock. */
  lemma StrandedWithoutCancellation(c: Config, budget: Budget, start: Time, p: PodId, e: Entry) returns (n: State)
    requires Worker(c, p, e.name) && e.name in c.scheduled && Generous(budget, e)
    ensures Gets(c, budget, start, e, n) && TwoRows(c, n, e) && Stray(n.rows[e.id])
  {
    var s1, listedAt := BothDue(c, budget, start, p, e);
    var s2 := Passes(c, budget, start, s1, p, e);
    n := LockedMeanwhile(c, budget, start, s2, p, e, listedAt);
  }

  /** The schedule reports, the row is locked, and the schedule releases. */
  lemma LockedMeanwhile(c: Config, budget: Budget, start: Time, s: State, p: PodId, e: Entry, listedAt: Time) returns (n: State)
    requires Gets(c, budget, start, e, s) && TwoRows(c, s, e) && s.rows[e.id].owner.None? && Generous(budget, e) && e.name in c.scheduled
    requires p in s.pods && s.pods[p].(cron := map[]) == ReadyPod(c, listedAt, e)
    requires e.name in s.pods[p].cron && s.pods[p].cron[e.name].acquiredAt < s.now && !s.pods[p].cron[e.name].reported
    requires forall r :: r in s.pods ==> s.pods[r].inFlight == map[]
    ensures Gets(c, budget, start, e, n) && TwoRows(c, n, e) && Stray(n.rows[e.id])
  {
    var reported := ScheduleReports(c, budget, start, s, p, e, Outcome(true, s.now, "", 1));
    var locked := Locks(c, budget, start, reported, p, e, listedAt);
    n := ScheduleUnlocks(c, budget, start, locked, p, e);
  }

  /** A cleanup that finds nothing. */
  lemma Passes(c: Config, budget: Budget, start: Time, s: State, p: PodId, e: Entry) returns (n: State)
    requires Gets(c, budget, start, e, s) && TwoRows(c, s, e) && s.rows[e.id].status == Pending && Generous(budget, e)
    requires forall r :: r in s.pods ==> s.pods[r].inFlight == map[]
    ensures Gets(c, budget, start, e, n) && n == s.(now := s.now + 1)
  {
    n := s.(now := s.now + 1);
    assert Cleaned(s.rows, c.retention, s.now + 1) == s.rows;
    UndisturbedIsOnTime(budget, n, p, e);
    Next(c, budget, start, e, s, Timed(s.now + 1, Cleanup), n);
  }

  // ---------- the guarantees hold exactly without a schedule ----------

  /** In every run, the owner guard admits a run of this handler exactly while it is the latest acquisition. */
  ghost predicate AlwaysFenced(c: Config, name: Name) {
    forall start, run, p, id ::
      var s := Exec(c, Start(c, start), run);
      InFlight(s, p, id) && id in s.rows && s.rows[id].name == name ==>
        id in s.past && (Unreleased(s.pods[p].inFlight[id].phase) && OwnedBy(s.rows, id, p) <==> Current(s, id, s.pods[p].inFlight[id]))
  }

  lemma {:induction false} FencedExactlyWithoutSchedule(c: Config, p: PodId, name: Name)
    requires Worker(c, p, name)
    ensures AlwaysFenced(c, name) <==> name !in c.scheduled
  {
    if name in c.scheduled {
      var e := Entry(0, name, 1);
      var s := RecordedInTheMiddle(c, Seconds(1), 0, p, e);
      var run :| Leads(c, Seconds(1), 0, run, e, s);
      assert !AlwaysFenced(c, name);
    } else {
      forall start, run, q, id | InFlight(Exec(c, Start(c, start), run), q, id) && id in Exec(c, Start(c, start), run).rows &&
                                 Exec(c, Start(c, start), run).rows[id].name == name
        ensures var s := Exec(c, Start(c, start), run);
          id in s.past && (Unreleased(s.pods[q].inFlight[id].phase) && OwnedBy(s.rows, id, q) <==> Current(s, id, s.pods[q].inFlight[id]))
      {
        OwnerGuardIsAFencingToken(c, start, run, q, id);
      }
    }
  }

  /** The event of a run of this handler that was overtaken before, a deletion excepted. */
  ghost predicate StaleEvent(c: Config, name: Name, start: Time, before: seq<Timed>, after: seq<Timed>, te: Timed, p: PodId, id: TaskId) {
    var s, n := Exec(c, Start(c, start), before), Exec(c, Start(c, start), before + after);
    TakenOver(s, p, id) && SameRun(s, n, p, id) && n.pods[p].inFlight[id].name == name && EventOfRun(te.event, p, id) && !te.event.Delete?
  }

  /** In every run, such an event leaves the table as it is. */
  ghost predicate AlwaysInert(c: Config, name: Name) {
    forall start, before, after, te, p, id :: StaleEvent(c, name, start, before, after, te, p, id) ==>
      var n := Exec(c, Start(c, start), before + after); Step(c, n, te).rows == n.rows
  }

  /** Its pod's schedule takes the row back from the successor, and the overtaken run passes the owner guard. */
  lemma RecordsAgain(c: Config, s: State, p: PodId, id: TaskId) returns (after: seq<Timed>, te: Timed)
    requires TakenOver(s, p, id) && s.pods[p].inFlight[id].phase.Executing? && s.pods[p].cron == map[]
    requires id in s.rows && ScheduledFor(s.rows[id], s.rows[id].name) && s.rows[id].name in c.scheduled
    ensures SameRun(s, Exec(c, s, after), p, id) && te.event == Record(p, id, false)
    ensures Exec(c, s, after).pods[p].inFlight[id].name == s.pods[p].inFlight[id].name
    ensures Step(c, Exec(c, s, after), te).rows != Exec(c, s, after).rows
  {
    var name, expiry := s.rows[id].name, s.rows[id].expireAt;
    var t := if expiry.Some? && expiry.value > s.now then expiry.value else s.now + 1;
    var lock, finish := Timed(t, Cron(p, name, Lock(id, 1))), Timed(t + 1, Finish(p, id, true, "", 1));
    CronStepped(c, s, t, p, name, Lock(id, 1));
    var locked := AfterCron(s, t, p, name, Lock(id, 1)).(now := t);
    ExecSnoc(c, s, [], lock);
    FinishStep(c, locked, t + 1, p, id, true, "", 1);
    ExecSnoc(c, s, [] + [lock], finish);
    after := [] + [lock] + [finish];
    te := RecordsOnIt(c, Exec(c, s, after), p, id);
  }

  lemma RecordsOnIt(c: Config, s: State, p: PodId, id: TaskId) returns (te: Timed)
    requires InFlight(s, p, id) && s.pods[p].inFlight[id].phase.Finished? && OwnedBy(s.rows, id, p)
    ensures te.event == Record(p, id, false) && Step(c, s, te).rows != s.rows
  {
    te := Timed(s.now + 1, Record(p, id, false));
    RecordStep(c, s, s.now + 1, p, id, false);
    assert Step(c, s, te).rows[id].runCount == s.rows[id].runCount + 1;
  }

  lemma {:induction false} InertExactlyWithoutSchedule(c: Config, p: PodId, q: PodId, name: Name)
    requires TwoWorkers(c, p, q, name)
    ensures AlwaysInert(c, name) <==> name !in c.scheduled
  {
    if name in c.scheduled {
      var e, budget := Entry(0, name, 1), (n: Name, t: int) => Limits(2, if t >= 0 then (t + LOCK_TTL_BUFFER) * SECOND else 0);
      var s := Overlaps(c, budget, 0, p, q, e, SCHEDULED_BIZ_NAME);
      var before :| Leads(c, budget, 0, before, e, s);
      var after, te := RecordsAgain(c, s, p, 0);
      ExecConcat(c, Start(c, 0), before, after);
      assert StaleEvent(c, name, 0, before, after, te, p, 0);
      assert !AlwaysInert(c, name);
    } else {
      forall start, before, after, te, r, id | StaleEvent(c, name, start, before, after, te, r, id)
        ensures var n := Exec(c, Start(c, start), before + after); Step(c, n, te).rows == n.rows
      {
        StaleRunsAreInert(c, start, before, after, te, r, id);
      }
    }
  }

  /** In every run, a row of this handler that was never broken off is locked whenever it is running. */
  ghost predicate NeverStray(c: Config, name: Name) {
    forall start, run, id ::
      var s := Exec(c, Start(c, start), run);
      NeverAborted(run, id) && id in s.rows && s.rows[id].name == name ==> !Stray(s.rows[id])
  }

  lemma {:induction false} StrayOnlyByCancellationExactlyWithoutSchedule(c: Config, p: PodId, name: Name)
    requires Worker(c, p, name)
    ensures NeverStray(c, name) <==> name !in c.scheduled
  {
    if name in c.scheduled {
      var e := Entry(0, name, 1);
      var s := StrandedWithoutCancellation(c, Seconds(1), 0, p, e);
      var run :| Leads(c, Seconds(1), 0, run, e, s);
      assert NeverAborted(run, e.id);
      assert !NeverStray(c, name);
    } else {
      forall start, run, id | NeverAborted(run, id) && id in Exec(c, Start(c, start), run).rows && Exec(c, Start(c, start), run).rows[id].name == name
        ensures !Stray(Exec(c, Start(c, start), run).rows[id])
      {
        NoStrayAlways(c, start, run, id);
      }
    }
  }

  /** A second pod inspected the row in time, and locks it while the first one executes it. */
  lemma OverlapsInTime(c: Config, budget: Budget, start: Time, p: PodId, q: PodId, e: Entry) returns (n: State)
    requires Worker(c, p, e.name) && Worker(c, q, e.name) && p != q && e.name in c.scheduled && Generous(budget, e)
    ensures Gets(c, budget, start, e, n) && Executes(n, p, e.id) && Executes(n, q, e.id) && e.id in n.past && n.past[e.id].name == e.name
  {
    var s, first, second := BothReady(c, budget, start, p, q, e);
    var m := EndsInTheMiddle(c, budget, start, s, p, e, first);
    n := SecondLocks(c, budget, start, m, p, q, e, second);
  }

  /** Two pods have inspected the row, and the schedule starts on the first. */
  lemma BothReady(c: Config, budget: Budget, start: Time, p: PodId, q: PodId, e: Entry) returns (n: State, first: Time, second: Time)
    requires Worker(c, p, e.name) && Worker(c, q, e.name) && p != q && e.name in c.scheduled && Generous(budget, e)
    ensures Gets(c, budget, start, e, n) && TwoRows(c, n, e) && n.rows[e.id].owner.None? && p in n.pods && q in n.pods
    ensures n.pods[p] == ReadyPod(c, first, e).(cron := map[e.name := CronRun(n.now, false)]) && n.pods[q] == ReadyPod(c, second, e)
    ensures forall r :: r in n.pods ==> n.pods[r].inFlight == map[]
  {
    var s1 := Submitted(c, budget, start, e, "key");
    var s2 := ListsAndInspects(c, budget, start, s1, p, e);
    var s3 := ListsAndInspects(c, budget, start, s2, q, e);
    n := ScheduleLocks(c, budget, start, s3, p, e, e.id + 1);
    first, second := s1.now + 1, s2.now + 1;
  }

  lemma SecondLocks(c: Config, budget: Budget, start: Time, s: State, p: PodId, q: PodId, e: Entry, listedAt: Time) returns (n: State)
    requires Gets(c, budget, start, e, s) && TwoRows(c, s, e) && Alone(s, p, e) && Alone(s.(now := s.now + 1), p, e) && Generous(budget, e)
    requires p != q && q in s.pods && s.pods[q] == ReadyPod(c, listedAt, e) && s.rows[e.id].owner.None?
    ensures Gets(c, budget, start, e, n) && Executes(n, p, e.id) && Executes(n, q, e.id) && e.id in n.past && n.past[e.id].name == e.name
  {
    AcquireStep(c, s, s.now + 1, q);
    n := AfterAcquire(s, s.now + 1, q).(now := s.now + 1);
    forall r | Executes(n, r, e.id) ensures WithinBudget(budget, n.now, n.pods[r].inFlight[e.id]) {
      if r == p {
        AloneIsOnTime(budget, s.(now := s.now + 1), p, e);
        assert n.pods[p] == s.pods[p];
      }
    }
    Next(c, budget, start, e, s, Timed(s.now + 1, Acquire(q)), n);
  }

  /**
   In every run in which the retries of a row of this handler fit its lock and its executions
   are on time, no two pods execute it at once.
   */
  ghost predicate AlwaysExclusive(c: Config, policies: Name -> Policy, overhead: nat, name: Name) {
    forall start, run, id, p, q ::
      var s := Exec(c, Start(c, start), run);
      OnTimeRun(c, ExecutorBudget(policies, overhead), start, run, id) && RetriesFitAlong(c, policies, overhead, start, run, id) &&
      id in s.past && s.past[id].name == name && p != q ==>
        !(Executes(s, p, id) && Executes(s, q, id))
  }

  lemma {:induction false} ExclusiveExactlyWithoutSchedule(c: Config, policies: Name -> Policy, overhead: nat, p: PodId, q: PodId, name: Name)
    requires Worker(c, p, name) && Worker(c, q, name) && p != q
    requires overhead >= 1 && RetriesFit(policies(name), overhead, 1)
    ensures AlwaysExclusive(c, policies, overhead, name) <==> name !in c.scheduled
  {
    if name in c.scheduled {
      var e, budget := Entry(0, name, 1), ExecutorBudget(policies, overhead);
      SomeTime(policies(name), 1);
      var s := OverlapsInTime(c, budget, 0, p, q, e);
      var run :| Leads(c, budget, 0, run, e, s);
      UniformFits(c, policies, overhead, 0, run, e);
      assert !AlwaysExclusive(c, policies, overhead, name);
    } else {
      forall start, run, id, x, y | OnTimeRun(c, ExecutorBudget(policies, overhead), start, run, id) &&
          RetriesFitAlong(c, policies, overhead, start, run, id) && id in Exec(c, Start(c, start), run).past &&
          Exec(c, Start(c, start), run).past[id].name == name && x != y
        ensures var s := Exec(c, Start(c, start), run); !(Executes(s, x, id) && Executes(s, y, id))
      {
        ExecutionsNeverOverlap(c, policies, overhead, start, run, id, x, y);
      }
    }
  }

  // ---------- nothing bounds the executions of the schedule's own key ----------

  /** A submitted row that has the key of the handler's schedule, released. */
  predicate Usurper(s: State, p: PodId, name: Name, limit: int, count: nat) {
    && s.rows.Keys == {0} && 0 in s.past && p in s.pods && s.pods[p] == IDLE
    && s.rows[0].kind == Oneshot && s.rows[0].name == name && s.rows[0].biz == Some(SCHEDULED_BIZ_NAME)
    && s.rows[0].owner.None? && s.rows[0].maxRuns == Some(limit) && s.rows[0].runCount == count
  }

  lemma Usurped(c: Config, p: PodId, name: Name, limit: int) returns (s: State)
    requires p in c.pods && name !in c.cooldowns
    ensures Rerun.Reaches(c, Start(c, 0), s) && Usurper(s, p, name, limit, 0)
  {
    var first := Start(c, 0);
    var e := SubmitOneshot(0, name, Some(SCHEDULED_BIZ_NAME), 1, Some(limit));
    Rerun.Here(c, first);
    s := Step(c, first, Timed(1, e));
    Rerun.Next(c, first, first, Timed(1, e), s);
  }

  /** One run of the schedule: it locks, records and releases the submitted row. */
  lemma CountsOnce(c: Config, s: State, p: PodId, name: Name, limit: int, count: nat) returns (n: State)
    requires Usurper(s, p, name, limit, count) && name in c.scheduled
    ensures Rerun.Reaches(c, s, n) && Usurper(n, p, name, limit, count + 1)
  {
    var outcome := Outcome(true, s.now + 2, "", 1);
    Rerun.Here(c, s);
    CronStepped(c, s, s.now + 1, p, name, Lock(0, 1));
    var s1 := AfterCron(s, s.now + 1, p, name, Lock(0, 1)).(now := s.now + 1);
    Rerun.Next(c, s, s, Timed(s.now + 1, Cron(p, name, Lock(0, 1))), s1);
    CronStepped(c, s1, s.now + 3, p, name, Report(outcome));
    var s2 := AfterCron(s1, s.now + 3, p, name, Report(outcome)).(now := s.now + 3);
    Rerun.Next(c, s, s1, Timed(s.now + 3, Cron(p, name, Report(outcome))), s2);
    n := ReleasesIt(c, s2, p, name, limit, count + 1);
    Rerun.Onwards(c, s, s2, n);
  }

  lemma ReleasesIt(c: Config, s: State, p: PodId, name: Name, limit: int, count: nat) returns (n: State)
    requires p in s.pods && s.pods[p].cron.Keys == {name} && s.pods[p].(cron := map[]) == IDLE && name in c.scheduled
    requires s.rows.Keys == {0} && s.rows[0].owner == Some(p) && s.rows[0].name == name
    requires 0 in s.past && Usurper(s.(rows := map[0 := Unlocked(s.rows[0])], pods := s.pods[p := IDLE]), p, name, limit, count)
    ensures Rerun.Reaches(c, s, n) && Usurper(n, p, name, limit, count)
  {
    Rerun.Here(c, s);
    CronStepped(c, s, s.now + 1, p, name, Unlock);
    n := AfterCron(s, s.now + 1, p, name, Unlock).(now := s.now + 1);
    Rerun.Next(c, s, s, Timed(s.now + 1, Cron(p, name, Unlock)), n);
    assert s.pods[p].cron - {name} == map[];
  }

  lemma {:induction false} CountsUp(c: Config, p: PodId, name: Name, limit: int, count: nat) returns (s: State)
    requires p in c.pods && name !in c.cooldowns && name in c.scheduled
    ensures Rerun.Reaches(c, Start(c, 0), s) && Usurper(s, p, name, limit, count)
    decreases count
  {
    if count == 0 {
      s := Usurped(c, p, name, limit);
    } else {
      var m := CountsUp(c, p, name, limit, count - 1);
      s := CountsOnce(c, m, p, name, limit, count - 1);
      Rerun.Onwards(c, Start(c, 0), m, s);
    }
  }

  /** In every run, a oneshot row of this handler has run no more often than its limit and once per pod. */
  ghost predicate AlwaysBounded(c: Config, name: Name) {
    forall start, run, id ::
      var s := Exec(c, Start(c, start), run);
      id in s.rows && s.rows[id].name == name && s.rows[id].kind == Oneshot && s.rows[id].maxRuns.Some? ==>
        s.rows[id].runCount <= Limit(s.rows[id]) + |c.pods|
  }

  /** A submission may use the key of the schedule, and then the schedule runs that row for ever. */
  lemma {:induction false} BoundedExactlyWithoutSchedule(c: Config, p: PodId, name: Name)
    requires p in c.pods && name !in c.cooldowns
    ensures AlwaysBounded(c, name) <==> name !in c.scheduled
  {
    if name in c.scheduled {
      var s := CountsUp(c, p, name, 1, |c.pods| + 2);
      var run :| s == Exec(c, Start(c, 0), run);
      assert Limit(s.rows[0]) == 1;
      assert !AlwaysBounded(c, name);
    } else {
      forall start, run, id | id in Exec(c, Start(c, start), run).rows && Exec(c, Start(c, start), run).rows[id].name == name &&
                              Exec(c, Start(c, start), run).rows[id].kind == Oneshot && Exec(c, Start(c, start), run).rows[id].maxRuns.Some?
        ensures var s := Exec(c, Start(c, start), run); s.rows[id].runCount <= Limit(s.rows[id]) + |c.pods|
      {
        BoundedReexecution(c, start, run, id);
      }
    }
  }

  /** In every run, a oneshot row of this handler that may never run is queued nowhere, and was never locked or recorded. */
  ghost predicate AlwaysUntouched(c: Config, name: Name) {
    forall start, run, id ::
      var s := Exec(c, Start(c, start), run);
      id in s.rows && s.rows[id].name == name && s.rows[id].kind == Oneshot && s.rows[id].maxRuns.Some? && s.rows[id].maxRuns.value <= 0 ==>
        Untouched(s, id)
  }

  lemma {:induction false} UntouchedExactlyWithoutSchedule(c: Config, p: PodId, name: Name)
    requires p in c.pods && name !in c.cooldowns
    ensures AlwaysUntouched(c, name) <==> name !in c.scheduled
  {
    if name in c.scheduled {
      var s := CountsUp(c, p, name, 0, 1);
      var run :| s == Exec(c, Start(c, 0), run);
      assert !AlwaysUntouched(c, name);
    } else {
      forall start, run, id | id in Exec(c, Start(c, start), run).rows && Exec(c, Start(c, start), run).rows[id].name == name &&
                              Exec(c, Start(c, start), run).rows[id].kind == Oneshot && Exec(c, Start(c, start), run).rows[id].maxRuns.Some? &&
                              Exec(c, Start(c, start), run).rows[id].maxRuns.value <= 0
        ensures Untouched(Exec(c, Start(c, start), run), id)
      {
        NoRunsWithoutPermission(c, start, run, id);
      }
    }
  }

  // ---------- the cap ----------

  /** In every run, the handler's live rows exceed its cap by at most one for each pod but one. */
  ghost predicate AlwaysCapped(c: Config, name: Name)
    requires name in c.caps
  {
    forall start, run ::
      var s := Exec(c, Start(c, start), run);
      |LiveIds(s.rows, name, s.now)| <= c.caps[name] + |c.pods| - 1
  }

  lemma {:induction false} CappedExactlyWithoutSchedule(c: Config, name: Name)
    requires Cap.CappedEverywhere(c, name) && c.pods != {}
    ensures AlwaysCapped(c, name) <==> name !in c.scheduled
  {
    if name in c.scheduled {
      Cap.SoftCapIsReached(c, 0, name);
      assert !AlwaysCapped(c, name);
    } else {
      forall start, run
        ensures var s := Exec(c, Start(c, start), run); |LiveIds(s.rows, name, s.now)| <= c.caps[name] + |c.pods| - 1
      {
        SoftCap(c, start, run, name, Exec(c, Start(c, start), run).now);
      }
    }
  }

  // ---------- run_at ----------

  /** In every run, run_at of a row of this handler never decreases. */
  ghost predicate RunAtGrows(c: Config, name: Name) {
    forall start, run, te, id ::
      var s := Exec(c, Start(c, start), run);
      var n := Step(c, s, te);
      id in s.rows && id in n.rows && s.rows[id].name == name ==> Triggers.AtMost(s.rows[id].runAt, n.rows[id].runAt)
  }

  /** The row's own run records first, then the schedule, whose run began before it. */
  lemma RecordsBoth(c: Config, s: State, p: PodId, e: Entry) returns (m: State, te: Timed)
    requires InFlight(s, p, e.id) && s.pods[p].inFlight[e.id].phase == Executing(s.now) && OwnedBy(s.rows, e.id, p) && e.id in s.past
    requires s.rows[e.id].name == e.name && e.name in c.scheduled
    requires e.name in s.pods[p].cron && s.pods[p].cron[e.name] == CronRun(s.now - 2, false)
    ensures Rerun.Reaches(c, s, m) && e.id in m.rows && e.id in Step(c, m, te).rows && m.rows[e.id].name == e.name
    ensures !Triggers.AtMost(m.rows[e.id].runAt, Step(c, m, te).rows[e.id].runAt)
  {
    var ended := SetPhase(s, p, e.id, Finished(Outcome(true, s.now, "", 1))).(now := s.now + 1);
    Rerun.Here(c, s);
    FinishStep(c, s, s.now + 1, p, e.id, true, "", 1);
    Rerun.Next(c, s, s, Timed(s.now + 1, Finish(p, e.id, true, "", 1)), ended);
    RecordStep(c, ended, s.now + 2, p, e.id, false);
    m := AfterRecord(ended, p, e.id, false).(now := s.now + 2);
    Rerun.Next(c, s, ended, Timed(s.now + 2, Record(p, e.id, false)), m);
    var report := Report(Outcome(true, s.now - 1, "", 1));
    te := Timed(s.now + 3, Cron(p, e.name, report));
    CronStepped(c, m, s.now + 3, p, e.name, report);
  }

  lemma RunAtDecreases(c: Config, p: PodId, e: Entry) returns (run: seq<Timed>, te: Timed)
    requires Worker(c, p, e.name) && e.name in c.scheduled && e.timeout > 0
    ensures var s := Exec(c, Start(c, 0), run);
      e.id in s.rows && e.id in Step(c, s, te).rows && s.rows[e.id].name == e.name &&
      !Triggers.AtMost(s.rows[e.id].runAt, Step(c, s, te).rows[e.id].runAt)
  {
    var s1, listedAt := BothDue(c, Seconds(1), 0, p, e);
    var s := StartsToExecute(c, Seconds(1), 0, s1, p, e, listedAt);
    var first :| Leads(c, Seconds(1), 0, first, e, s);
    var m;
    m, te := RecordsBoth(c, s, p, e);
    var rest :| m == Exec(c, s, rest);
    ExecConcat(c, Start(c, 0), first, rest);
    run := first + rest;
  }

  lemma {:induction false} RunAtGrowsExactlyWithoutSchedule(c: Config, p: PodId, name: Name)
    requires Worker(c, p, name)
    ensures RunAtGrows(c, name) <==> name !in c.scheduled
  {
    if name in c.scheduled {
      var run, te := RunAtDecreases(c, p, Entry(0, name, 1));
      assert !RunAtGrows(c, name);
    } else {
      forall start, run, te, id | id in Exec(c, Start(c, start), run).rows && id in Step(c, Exec(c, Start(c, start), run), te).rows &&
                                  Exec(c, Start(c, start), run).rows[id].name == name
        ensures var s := Exec(c, Start(c, start), run); Triggers.AtMost(s.rows[id].runAt, Step(c, s, te).rows[id].runAt)
      {
        Triggers.RunAtNeverDecreases(c, start, run, te, id);
      }
    }
  }

  // ---------- the schedule settles what was triggered ----------

  predicate NoRecord(run: seq<Timed>) {
    forall k :: 0 <= k < |run| ==> !run[k].event.Record?
  }

  /** Reached without a record of any background task. */
  ghost predicate ReachedUnrecorded(c: Config, s: State, n: State) {
    exists run :: NoRecord(run) && n == Exec(c, s, run)
  }

  lemma GoesOn(c: Config, s: State, m: State, te: Timed, n: State)
    requires ReachedUnrecorded(c, s, m) && n == Step(c, m, te) && !te.event.Record?
    ensures ReachedUnrecorded(c, s, n)
  {
    var run :| NoRecord(run) && m == Exec(c, s, run);
    ExecSnoc(c, s, run, te);
    assert NoRecord(run + [te]);
  }

  /** The row of one submission, asked for at the given time, and all pods idle but for their tickers. */
  predicate OneTrigger(c: Config, s: State, name: Name, at: Time) {
    && s.rows.Keys == {0} && s.past.Keys == {0}
    && s.rows[0].kind == Triggered && s.rows[0].name == name && s.rows[0].biz == Some("key") && s.rows[0].requestAt == Some(at)
    && s.rows[0].timeout == Some(1) && s.rows[0].runAt.None?
  }

  lemma TriggerListed(c: Config, s: State, p: PodId, name: Name, at: Time) returns (n: State)
    requires OneTrigger(c, s, name, at) && at <= s.now && s.rows[0].owner.None? && s.rows[0].status == Pending
    requires p in s.pods && s.pods[p] == IDLE && (p, name) in c.registered
    ensures ReachedUnrecorded(c, s, n) && OneTrigger(c, n, name, at) && n.now == s.now + 2 && n.rows == s.rows
    ensures p in n.pods && n.pods[p].ticker == Ticker(Triggered, s.now + 1, [Entry(0, name, 1)], Inspected)
    ensures n.pods[p].inFlight == map[] && n.pods[p].cron == map[]
  {
    var e := Entry(0, name, 1);
    assert s == Exec(c, s, []);
    assert IsListing(s.rows, Triggered, s.now + 1, [e]) by { assert [e][0].id == 0; }
    ListStep(c, s, s.now + 1, p, Triggered, [e]);
    var l := SetTicker(s, p, Ticker(Triggered, s.now + 1, [e], Fresh)).(now := s.now + 1);
    GoesOn(c, s, s, Timed(s.now + 1, List(p, Triggered, [e])), l);
    InspectStep(c, l, s.now + 2, p);
    n := Advance(l, p, Inspected).(now := s.now + 2);
    GoesOn(c, s, l, Timed(s.now + 2, Inspect(p)), n);
  }

  lemma TriggerLocked(c: Config, first: State, s: State, p: PodId, name: Name, at: Time) returns (n: State)
    requires ReachedUnrecorded(c, first, s) && OneTrigger(c, s, name, at) && s.rows[0].owner.None?
    requires p in s.pods && s.pods[p].ticker.kind == Triggered && s.pods[p].ticker.queue == [Entry(0, name, 1)]
    requires s.pods[p].ticker.stage == Inspected && s.pods[p].cron == map[]
    ensures ReachedUnrecorded(c, first, n) && OneTrigger(c, n, name, at) && n.rows[0].owner == Some(p) && n.now == s.now + 1
    ensures p in n.pods && n.pods[p].cron == map[]
  {
    AcquireStep(c, s, s.now + 1, p);
    n := AfterAcquire(s, s.now + 1, p).(now := s.now + 1);
    GoesOn(c, first, s, Timed(s.now + 1, Acquire(p)), n);
  }

  lemma TriggerSettled(c: Config, first: State, s: State, p: PodId, name: Name, at: Time) returns (n: State)
    requires ReachedUnrecorded(c, first, s) && OneTrigger(c, s, name, at) && s.rows[0].owner == Some(p) && at <= s.now
    requires p in s.pods && s.pods[p].cron == map[] && name in c.scheduled
    ensures ReachedUnrecorded(c, first, n) && 0 in n.rows && !Dirty(n.rows[0])
  {
    CronStepped(c, s, s.now + 1, p, name, Lock(1, 1));
    var m := AfterCron(s, s.now + 1, p, name, Lock(1, 1)).(now := s.now + 1);
    GoesOn(c, first, s, Timed(s.now + 1, Cron(p, name, Lock(1, 1))), m);
    var outcome := Outcome(true, s.now + 2, "", 1);
    CronStepped(c, m, s.now + 3, p, name, Report(outcome));
    n := AfterCron(m, s.now + 3, p, name, Report(outcome)).(now := s.now + 3);
    GoesOn(c, first, m, Timed(s.now + 3, Cron(p, name, Report(outcome))), n);
  }

  /** After every submission, and whatever follows, the row still asks for a run or one that started since has been recorded for it. */
  ghost predicate NeverLosesTriggers(c: Config, name: Name) {
    forall start, before, te, after :: IsTrigger(c, start, before, te, name) ==> TriggerKept(c, start, before, te, after)
  }

  ghost predicate IsTrigger(c: Config, start: Time, before: seq<Timed>, te: Timed, name: Name) {
    var s := Exec(c, Start(c, start), before);
    te.at > s.now && te.event.SubmitTriggered? && te.event.name == name && Enabled(c, s, te.at, te.event)
  }

  ghost predicate TriggerKept(c: Config, start: Time, before: seq<Timed>, te: Timed, after: seq<Timed>)
    requires te.event.SubmitTriggered?
  {
    var id, run := te.event.id, before + [te] + after;
    var n := Exec(c, Start(c, start), run);
    id in n.rows && (Dirty(n.rows[id]) || exists at: Time, k: nat :: at >= te.at && Triggers.RecordedStart(c, start, run, k, id, at))
  }

  lemma TriggerLost(c: Config, p: PodId, name: Name) returns (te: Timed, after: seq<Timed>)
    requires p in c.pods && (p, name) in c.registered && name in c.cooldowns && name in c.scheduled
    ensures IsTrigger(c, 0, [], te, name) && !TriggerKept(c, 0, [], te, after)
  {
    te := Timed(1, SubmitTriggered(0, name, "key", 1, None));
    var s := Step(c, Start(c, 0), te);
    var s1 := TriggerListed(c, s, p, name, 1);
    var s2 := TriggerLocked(c, s, s1, p, name, 1);
    var n := TriggerSettled(c, s, s2, p, name, 1);
    after :| NoRecord(after) && n == Exec(c, s, after);
    ExecSnoc(c, Start(c, 0), [], te);
    ExecConcat(c, Start(c, 0), [] + [te], after);
    assert NoRecord([] + [te] + after);
  }

  lemma {:induction false} TriggersKeptExactlyWithoutSchedule(c: Config, p: PodId, name: Name)
    requires p in c.pods && (p, name) in c.registered && name in c.cooldowns
    ensures NeverLosesTriggers(c, name) <==> name !in c.scheduled
  {
    if name in c.scheduled {
      var te, after := TriggerLost(c, p, name);
      assert !NeverLosesTriggers(c, name);
    } else {
      forall start, before, te, after | IsTrigger(c, start, before, te, name) ensures TriggerKept(c, start, before, te, after) {
        Triggers.NoLostTrigger(c, start, before, te, after);
      }
    }
  }

  // ---------- and brings up what was settled ----------

  /** The row is submitted anew while both its entry and a run of the schedule are pending. */
  lemma Resubmits(c: Config, budget: Budget, start: Time, s: State, p: PodId, e: Entry) returns (n: State)
    requires Gets(c, budget, start, e, s) && TwoRows(c, s, e) && e.name in c.cooldowns && s.rows[e.id].owner.None? && s.rows[e.id].runAt.None?
    requires s.rows[e.id].biz == Some("key") && e.timeout > 0
    requires forall r :: r in s.pods ==> s.pods[r].inFlight == map[]
    ensures Gets(c, budget, start, e, n) && TwoRows(c, n, e) && n.pods == s.pods && n.now == s.now + 2
    ensures n.rows[e.id].owner.None? && n.rows[e.id].requestAt == Some(s.now + 2) && n.rows[e.id].timeout == Some(e.timeout)
  {
    var te := Timed(s.now + 2, SubmitTriggered(e.id, e.name, "key", e.timeout, None));
    n := Step(c, s, te);
    Next(c, budget, start, e, s, te, n);
  }

  /** Executed and recorded, the row is settled; the schedule then reports a run that started before the request. */
  lemma ReportsEarlier(c: Config, s: State, p: PodId, e: Entry) returns (m: State, n: State)
    requires InFlight(s, p, e.id) && s.pods[p].inFlight[e.id].phase == Executing(s.now) && OwnedBy(s.rows, e.id, p) && TwoRows(c, s, e)
    requires e.name in c.scheduled && e.name in s.pods[p].cron && s.pods[p].cron[e.name] == CronRun(s.now - 4, false)
    ensures Rerun.Reaches(c, s, m) && e.id in m.rows && m.rows[e.id] == Recorded(s.rows[e.id], Outcome(true, s.now, "", 1))
    ensures e.id in m.past && s.now in m.past[e.id].starts
    ensures n == Step(c, m, Timed(s.now + 3, Cron(p, e.name, Report(Outcome(true, s.now - 3, "", 1))))) && n.now == s.now + 3
    ensures TwoRows(c, n, e) && n.rows[e.id] == Recorded(m.rows[e.id], Outcome(true, s.now - 3, "", 1))
    ensures p in n.pods && n.pods[p].ticker == s.pods[p].ticker
  {
    var ended := SetPhase(s, p, e.id, Finished(Outcome(true, s.now, "", 1))).(now := s.now + 1);
    Rerun.Here(c, s);
    FinishStep(c, s, s.now + 1, p, e.id, true, "", 1);
    Rerun.Next(c, s, s, Timed(s.now + 1, Finish(p, e.id, true, "", 1)), ended);
    RecordStep(c, ended, s.now + 2, p, e.id, false);
    m := AfterRecord(ended, p, e.id, false).(now := s.now + 2);
    Rerun.Next(c, s, ended, Timed(s.now + 2, Record(p, e.id, false)), m);
    var report := Report(Outcome(true, s.now - 3, "", 1));
    CronStepped(c, m, s.now + 3, p, e.name, report);
    n := AfterCron(m, s.now + 3, p, e.name, report).(now := s.now + 3);
  }

  lemma ResubmittedAndExecuted(c: Config, p: PodId, e: Entry) returns (s: State, run: seq<Timed>)
    requires Worker(c, p, e.name) && e.name in c.scheduled && e.name in c.cooldowns && e.timeout > 0
    ensures s == Exec(c, Start(c, 0), run) && TwoRows(c, s, e) && OwnedBy(s.rows, e.id, p)
    ensures InFlight(s, p, e.id) && s.pods[p].inFlight[e.id].phase == Executing(s.now) && s.pods[p].ticker.queue == []
    ensures e.name in s.pods[p].cron && s.pods[p].cron[e.name] == CronRun(s.now - 4, false)
    ensures s.rows[e.id].requestAt == Some(s.now - 2) && s.rows[e.id].timeout == Some(e.timeout)
  {
    var s1, listedAt := BothDue(c, Seconds(1), 0, p, e);
    var s2 := Resubmits(c, Seconds(1), 0, s1, p, e);
    s := StartsToExecute(c, Seconds(1), 0, s2, p, e, listedAt);
    run :| Leads(c, Seconds(1), 0, run, e, s);
  }

  /** In every run, a row of this handler for whose request a run has been recorded is not listed before the next submission. */
  ghost predicate NeverListsSettled(c: Config, name: Name) {
    forall start, before, after, te, id, at :: SettledListing(c, name, start, before, after, te, id, at) ==> id !in Ids(te.event.entries)
  }

  /** A listing after a run that started at or after the request was recorded on the row, and no submission since. */
  ghost predicate SettledListing(c: Config, name: Name, start: Time, before: seq<Timed>, after: seq<Timed>, te: Timed, id: TaskId, at: Time) {
    var s := Exec(c, Start(c, start), before);
    id in s.rows && s.rows[id].name == name && id in s.past && s.rows[id].kind == Triggered && s.rows[id].requestAt.Some? &&
    at in s.past[id].starts && at >= s.rows[id].requestAt.value && Listings.NoSubmission(after, id) &&
    Listings.Lists(c, Exec(c, Start(c, start), before + after), te)
  }

  /** The row asks for a run again: its pod lists it. */
  lemma ListsIt(c: Config, s: State, p: PodId, e: Entry) returns (te: Timed)
    requires TwoRows(c, s, e) && e.name in c.cooldowns && e.timeout > 0 && s.rows[e.id].timeout == Some(e.timeout) && s.rows[e.id].status == Success
    requires Dirty(s.rows[e.id]) && s.rows[e.id].requestAt.value <= s.now && p in s.pods && s.pods[p].ticker.queue == []
    ensures Listings.Lists(c, s, te) && e.id in Ids(te.event.entries)
  {
    te := Timed(s.now + 1, List(p, Triggered, [e]));
    assert [e][0].id == e.id;
    assert IsListing(s.rows, Triggered, s.now + 1, [e]);
  }

  lemma SettledIsListed(c: Config, p: PodId, e: Entry) returns (before: seq<Timed>, after: seq<Timed>, te: Timed, at: Time)
    requires Worker(c, p, e.name) && e.name in c.scheduled && e.name in c.cooldowns && e.timeout > 0
    ensures SettledListing(c, e.name, 0, before, after, te, e.id, at) && e.id in Ids(te.event.entries)
  {
    var s, first := ResubmittedAndExecuted(c, p, e);
    var m, n := ReportsEarlier(c, s, p, e);
    var rest :| m == Exec(c, s, rest);
    ExecConcat(c, Start(c, 0), first, rest);
    before, at := first + rest, s.now;
    after := [Timed(s.now + 3, Cron(p, e.name, Report(Outcome(true, s.now - 3, "", 1))))];
    ExecSnoc(c, Start(c, 0), before, after[0]);
    te := ListsIt(c, n, p, e);
  }

  lemma {:induction false} SettledStaysExactlyWithoutSchedule(c: Config, p: PodId, name: Name)
    requires Worker(c, p, name) && name in c.cooldowns
    ensures NeverListsSettled(c, name) <==> name !in c.scheduled
  {
    if name in c.scheduled {
      var before, after, te, at := SettledIsListed(c, p, Entry(0, name, 1));
      assert !NeverListsSettled(c, name);
    } else {
      forall start, before, after, te, id, at | SettledListing(c, name, start, before, after, te, id, at) ensures id !in Ids(te.event.entries) {
        Listings.SettledRowsAreNotListed(c, start, before, after, te, id, at);
      }
    }
  }
}
