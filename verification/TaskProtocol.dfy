/**
 The multi-pod task protocol as a state machine.

 Any number of pods share one task table. Each pod runs its ticks one after another; a tick
 lists pending rows and then, row by row, inspects, checks the cap and tries the lock. Each
 row it locks is executed by a background task of that pod. Every stretch of code between
 two awaits, and every SQL transaction, is one event. Events of different pods, submissions,
 crashes and cleanups interleave in any order; the clock strictly increases from one event
 to the next and any amount of time may pass in between.

 An event that is not enabled changes nothing, so every sequence of timed events is a run.
 */
module TaskProtocol {
  import opened Wrappers
  import opened TaskRows

  /** Set up once for all pods; `registered` says which handlers a pod knows. */
  datatype Config = Config(
    pods: set<PodId>,
    registered: set<(PodId, Name)>,
    caps: map<Name, nat>,        // max_concurrency of the handlers declared with a cap
    cooldowns: map<Name, nat>,   // the triggered handlers and their cooldown in seconds
    scheduled: set<Name>,        // the handlers that also run on a schedule
    retention: Retention)

  /** Progress on the head of the queue: not looked at, passed the local checks, passed the cluster count. */
  datatype Stage = Fresh | Inspected | Cleared

  /** One pod's tick: the rows of its last listing that it has not dealt with yet. */
  datatype Ticker = Ticker(kind: TaskType, listedAt: Time, queue: seq<Entry>, stage: Stage)

  /** Where a background task is; `ok` is its `succeeded` flag. */
  datatype Phase =
    | Dispatched
    | Executing(startedAt: Time)
    | Finished(outcome: Outcome)
    | Unlocking(ok: bool)
    | Deleting(ok: bool)
    | Done

  /** A background task. `epoch` numbers the acquisitions of the row; the program has no such number. */
  datatype Run = Run(kind: TaskType, name: Name, timeout: int, epoch: nat, listedAt: Time, acquiredAt: Time, phase: Phase)

  /** The background task of a scheduled handler. */
  datatype CronRun = CronRun(acquiredAt: Time, reported: bool)

  datatype Pod = Pod(ticker: Ticker, inFlight: map<TaskId, Run>, cron: map<Name, CronRun>)

  /** What happened to a row id so far: history that no step of the program reads. */
  datatype Past = Past(kind: TaskType, name: Name, acquisitions: nat, lastSubmit: Time, starts: set<Time>)

  /** What the scheduled runner does to the table, always by handler name. */
  datatype CronStep = Lock(id: TaskId, ttl: int) | Report(outcome: Outcome) | Unlock

  datatype State = State(now: Time, rows: Table, pods: map<PodId, Pod>, past: map<TaskId, Past>)

  datatype Event =
    | SubmitOneshot(id: TaskId, name: Name, biz: Option<Name>, timeout: int, maxRuns: Option<int>)
    | SubmitTriggered(id: TaskId, name: Name, key: Name, timeout: int, maxRuns: Option<int>)
    | List(pod: PodId, kind: TaskType, entries: seq<Entry>)
    | Inspect(pod: PodId)
    | CountRunning(pod: PodId)
    | Acquire(pod: PodId)
    | Abandon(pod: PodId)            // an error ends the tick: the rest of its listing is dropped
    | Begin(pod: PodId, id: TaskId)
    | Finish(pod: PodId, id: TaskId, ok: bool, error: string, attempts: int)
    | Record(pod: PodId, id: TaskId, lost: bool)       // lost: committed, but cancelled before it returns
    | Release(pod: PodId, id: TaskId, fails: bool)
    | Delete(pod: PodId, id: TaskId, fails: bool)
    | Retire(pod: PodId, id: TaskId)  // done, or cancelled before its first step
    | Abort(pod: PodId, id: TaskId)   // cancellation, or an error while recording
    | Cron(pod: PodId, name: Name, step: CronStep)
    | Crash(pod: PodId)
    | Cleanup

  datatype Timed = Timed(at: Time, event: Event)

  const IDLE: Pod := Pod(Ticker(Oneshot, 0, [], Fresh), map[], map[])

  function Start(c: Config, now: Time): State {
    State(now, map[], map p | p in c.pods :: IDLE, map[])
  }

  // ---------- what each event needs ----------

  predicate Unrecorded(phase: Phase) {
    phase.Dispatched? || phase.Executing? || phase.Finished?
  }

  /** Inside the `try`: a task cancelled before its first step never gets there. */
  predicate Breakable(phase: Phase) {
    phase.Executing? || phase.Finished?
  }

  predicate Unreleased(phase: Phase) {
    Unrecorded(phase) || phase.Unlocking?
  }

  /** Acquired and not yet returned from the executor. */
  predicate Active(phase: Phase) {
    phase.Dispatched? || phase.Executing?
  }

  predicate InFlight(s: State, p: PodId, id: TaskId) {
    p in s.pods && id in s.pods[p].inFlight
  }

  predicate Busy(s: State, p: PodId, stage: Stage) {
    p in s.pods && s.pods[p].ticker.queue != [] && s.pods[p].ticker.stage == stage
  }

  /** The cap that applies to the head of the queue, if any: only oneshot ticks look at caps. */
  predicate Capped(c: Config, ticker: Ticker)
    requires ticker.queue != []
  {
    ticker.kind == Oneshot && ticker.queue[0].name in c.caps
  }

  /** in_flight_count_by_handler of the oneshot runner. */
  function LocalIds(pod: Pod, name: Name): set<TaskId> {
    set id | id in pod.inFlight && pod.inFlight[id].kind == Oneshot && pod.inFlight[id].name == name
  }

  /** One run of a scheduled handler at a time on a pod; it locks, reports at most once, and releases. */
  predicate CronEnabled(s: State, t: Time, p: PodId, name: Name, step: CronStep)
    requires p in s.pods
  {
    var cron := s.pods[p].cron;
    match step
    case Lock(id, _) =>
      name !in cron &&
      if Taken(s.rows, name, Some(SCHEDULED_BIZ_NAME)) then id in s.rows && ScheduledFor(s.rows[id], name) else id !in s.past
    case Report(outcome) => name in cron && !cron[name].reported && cron[name].acquiredAt < outcome.startedAt < t
    case Unlock => name in cron
  }

  predicate Enabled(c: Config, s: State, t: Time, e: Event) {
    match e
    case SubmitOneshot(id, name, biz, _, _) =>
      id !in s.past && name !in c.cooldowns && !Taken(s.rows, name, biz)
    case SubmitTriggered(id, name, key, _, _) =>
      name in c.cooldowns &&
      if Taken(s.rows, name, Some(key)) then id in s.rows && s.rows[id].name == name && s.rows[id].biz == Some(key)
      else id !in s.past
    case List(p, kind, entries) =>
      p in s.pods && s.pods[p].ticker.queue == [] && kind != Scheduled && IsListing(s.rows, kind, t, entries)
    case Inspect(p) => Busy(s, p, Fresh)
    case CountRunning(p) => Busy(s, p, Inspected) && Capped(c, s.pods[p].ticker)
    case Acquire(p) =>
      Busy(s, p, Cleared) || (Busy(s, p, Inspected) && !Capped(c, s.pods[p].ticker))
    case Abandon(p) => p in s.pods
    case Begin(p, id) => InFlight(s, p, id) && s.pods[p].inFlight[id].phase.Dispatched?
    case Finish(p, id, _, _, _) => InFlight(s, p, id) && s.pods[p].inFlight[id].phase.Executing?
    case Record(p, id, _) => InFlight(s, p, id) && s.pods[p].inFlight[id].phase.Finished?
    case Release(p, id, _) => InFlight(s, p, id) && s.pods[p].inFlight[id].phase.Unlocking?
    case Delete(p, id, _) => InFlight(s, p, id) && s.pods[p].inFlight[id].phase.Deleting?
    case Retire(p, id) => InFlight(s, p, id) && (s.pods[p].inFlight[id].phase.Done? || s.pods[p].inFlight[id].phase.Dispatched?)
    case Abort(p, id) => InFlight(s, p, id) && Breakable(s.pods[p].inFlight[id].phase)
    case Cron(p, name, step) => p in s.pods && name in c.scheduled && CronEnabled(s, t, p, name, step)
    case Crash(p) => p in s.pods
    case Cleanup => true
  }

  // ---------- what each event does ----------

  function SetTicker(s: State, p: PodId, ticker: Ticker): State
    requires p in s.pods
  {
    s.(pods := s.pods[p := s.pods[p].(ticker := ticker)])
  }

  function Advance(s: State, p: PodId, stage: Stage): State
    requires p in s.pods
  {
    SetTicker(s, p, s.pods[p].ticker.(stage := stage))
  }

  /** `continue`: on to the next row of the listing. */
  function Skip(s: State, p: PodId): State
    requires p in s.pods && s.pods[p].ticker.queue != []
  {
    var ticker := s.pods[p].ticker;
    SetTicker(s, p, ticker.(queue := ticker.queue[1..], stage := Fresh))
  }

  function SetPhase(s: State, p: PodId, id: TaskId, phase: Phase): State
    requires InFlight(s, p, id)
  {
    var pod := s.pods[p];
    s.(pods := s.pods[p := pod.(inFlight := pod.inFlight[id := pod.inFlight[id].(phase := phase)])])
  }

  /** Not registered here, already in flight here, or this pod alone is at the cap. */
  predicate Rejected(c: Config, p: PodId, pod: Pod)
    requires pod.ticker.queue != []
  {
    var head := pod.ticker.queue[0];
    (p, head.name) !in c.registered || head.id in pod.inFlight ||
    (Capped(c, pod.ticker) && |LocalIds(pod, head.name)| >= c.caps[head.name])
  }

  function AfterInspect(c: Config, s: State, p: PodId): State
    requires Busy(s, p, Fresh)
  {
    if Rejected(c, p, s.pods[p]) then Skip(s, p) else Advance(s, p, Inspected)
  }

  function AfterCount(c: Config, s: State, t: Time, p: PodId): State
    requires Busy(s, p, Inspected) && Capped(c, s.pods[p].ticker)
  {
    var name := s.pods[p].ticker.queue[0].name;
    if |LiveIds(s.rows, name, t)| >= c.caps[name] then Skip(s, p) else Advance(s, p, Cleared)
  }

  function PastOf(s: State, id: TaskId): Past {
    if id in s.past then s.past[id] else Past(Oneshot, "", 0, s.now, {})
  }

  function AfterAcquire(s: State, t: Time, p: PodId): State
    requires p in s.pods && s.pods[p].ticker.queue != []
  {
    var ticker := s.pods[p].ticker;
    var head := ticker.queue[0];
    var (rows, acquired) := AcquireLock(s.rows, head.id, p, t, head.timeout + LOCK_TTL_BUFFER);
    if !acquired then Skip(s, p) else
      var past := PastOf(s, head.id);
      var run := Run(ticker.kind, head.name, head.timeout, past.acquisitions + 1, ticker.listedAt, t, Dispatched);
      var next := ticker.(queue := ticker.queue[1..], stage := Fresh);
      State(s.now, rows, s.pods[p := s.pods[p].(ticker := next, inFlight := s.pods[p].inFlight[head.id := run])],
            s.past[head.id := past.(acquisitions := past.acquisitions + 1)])
  }

  /** `result.error or "unknown error"`. */
  function Reported(outcome: Outcome): Outcome {
    if outcome.error == "" then outcome.(error := "unknown error") else outcome
  }

  function AfterRecord(s: State, p: PodId, id: TaskId, lost: bool): State
    requires InFlight(s, p, id) && s.pods[p].inFlight[id].phase.Finished?
  {
    var outcome := s.pods[p].inFlight[id].phase.outcome;
    var past := PastOf(s, id);
    SetPhase(s, p, id, Unlocking(outcome.ok && !lost)).(
      rows := RecordOutcome(s.rows, id, p, Reported(outcome)),
      past := if OwnedBy(s.rows, id, p) then s.past[id := past.(starts := past.starts + {outcome.startedAt})] else s.past)
  }

  /** Only oneshot rows are deleted after a run. */
  predicate Deletes(c: Config, run: Run)
    requires run.phase.Deleting?
  {
    run.kind == Oneshot && DeletesAtOnce(c.retention, run.phase.ok)
  }

  function AfterSubmit(c: Config, s: State, t: Time, id: TaskId, name: Name, key: Name, timeout: int, maxRuns: Option<int>): State
    requires name in c.cooldowns
  {
    var row := if id in s.rows then Resubmitted(s.rows[id], timeout, maxRuns, t, c.cooldowns[name])
               else NewRow(Triggered, name, Some(key), timeout, maxRuns, Some(t), t);
    var past := if id in s.past then s.past[id] else Past(Triggered, name, 0, t, {});
    s.(rows := s.rows[id := row], past := s.past[id := past.(lastSubmit := t)])
  }

  function SetCron(s: State, p: PodId, cron: map<Name, CronRun>): State
    requires p in s.pods
  {
    s.(pods := s.pods[p := s.pods[p].(cron := cron)])
  }

  function AfterCron(s: State, t: Time, p: PodId, name: Name, step: CronStep): State
    requires p in s.pods && CronEnabled(s, t, p, name, step)
  {
    var cron := s.pods[p].cron;
    match step
    case Lock(id, ttl) =>
      var (rows, acquired) := AcquireByName(s.rows, id, name, p, t, ttl);
      var past := if id in s.past then s.past else s.past[id := Past(Scheduled, name, 0, t, {})];
      if acquired then SetCron(s, p, cron[name := CronRun(t, false)]).(rows := rows, past := past) else s
    case Report(outcome) =>
      SetCron(s, p, cron[name := cron[name].(reported := true)]).(rows := RecordByName(s.rows, name, p, Reported(outcome)))
    case Unlock => SetCron(s, p, cron - {name}).(rows := ReleaseByName(s.rows, name, p))
  }

  /** The effect of an enabled event, before the clock moves to its time. */
  function Apply(c: Config, s: State, t: Time, e: Event): State
    requires Enabled(c, s, t, e)
  {
    match e
    case SubmitOneshot(id, name, biz, timeout, maxRuns) =>
      s.(rows := s.rows[id := NewRow(Oneshot, name, biz, timeout, maxRuns, None, t)], past := s.past[id := Past(Oneshot, name, 0, t, {})])
    case SubmitTriggered(id, name, key, timeout, maxRuns) => AfterSubmit(c, s, t, id, name, key, timeout, maxRuns)
    case List(p, kind, entries) => SetTicker(s, p, Ticker(kind, t, entries, Fresh))
    case Inspect(p) => AfterInspect(c, s, p)
    case CountRunning(p) => AfterCount(c, s, t, p)
    case Acquire(p) => AfterAcquire(s, t, p)
    case Abandon(p) => SetTicker(s, p, s.pods[p].ticker.(queue := [], stage := Fresh))
    case Begin(p, id) => SetPhase(s, p, id, Executing(t))
    case Finish(p, id, ok, error, attempts) =>
      SetPhase(s, p, id, Finished(Outcome(ok, s.pods[p].inFlight[id].phase.startedAt, error, attempts)))
    case Record(p, id, lost) => AfterRecord(s, p, id, lost)
    case Release(p, id, fails) =>
      SetPhase(s, p, id, Deleting(s.pods[p].inFlight[id].phase.ok)).(rows := if fails then s.rows else ReleaseLock(s.rows, id, p))
    case Delete(p, id, fails) =>
      SetPhase(s, p, id, Done).(rows := if !fails && Deletes(c, s.pods[p].inFlight[id]) then s.rows - {id} else s.rows)
    case Retire(p, id) => s.(pods := s.pods[p := s.pods[p].(inFlight := s.pods[p].inFlight - {id})])
    case Abort(p, id) => SetPhase(s, p, id, Unlocking(false))
    case Cron(p, name, step) => AfterCron(s, t, p, name, step)
    case Crash(p) => s.(pods := s.pods[p := IDLE])
    case Cleanup => s.(rows := Cleaned(s.rows, c.retention, t))
  }

  function Step(c: Config, s: State, te: Timed): State {
    if te.at > s.now && Enabled(c, s, te.at, te.event) then Apply(c, s, te.at, te.event).(now := te.at) else s
  }

  function Exec(c: Config, s: State, run: seq<Timed>): State
    decreases |run|
  {
    if run == [] then s else Step(c, Exec(c, s, run[..|run| - 1]), run[|run| - 1])
  }

  lemma {:induction false} ExecConcat(c: Config, s: State, a: seq<Timed>, b: seq<Timed>)
    ensures Exec(c, s, a + b) == Exec(c, Exec(c, s, a), b)
    decreases |b|
  {
    if b == [] {
      assert a + b == a;
    } else {
      ExecConcat(c, s, a, b[..|b| - 1]);
      assert (a + b)[..|a + b| - 1] == a + b[..|b| - 1];
    }
  }

  lemma ExecSnoc(c: Config, s: State, run: seq<Timed>, te: Timed)
    ensures Exec(c, s, run + [te]) == Step(c, Exec(c, s, run), te)
  {
    assert (run + [te])[..|run + [te]| - 1] == run;
  }

  // ---------- the ticker's events one at a time ----------

  lemma ListStep(c: Config, s: State, t: Time, p: PodId, kind: TaskType, entries: seq<Entry>)
    requires t > s.now && p in s.pods && s.pods[p].ticker.queue == [] && kind != Scheduled && IsListing(s.rows, kind, t, entries)
    ensures Step(c, s, Timed(t, List(p, kind, entries))) == SetTicker(s, p, Ticker(kind, t, entries, Fresh)).(now := t)
  {
  }

  lemma InspectStep(c: Config, s: State, t: Time, p: PodId)
    requires t > s.now && Busy(s, p, Fresh)
    ensures Step(c, s, Timed(t, Inspect(p))) == AfterInspect(c, s, p).(now := t)
  {
  }

  lemma CountStep(c: Config, s: State, t: Time, p: PodId)
    requires t > s.now && Busy(s, p, Inspected) && Capped(c, s.pods[p].ticker)
    ensures Step(c, s, Timed(t, CountRunning(p))) == AfterCount(c, s, t, p).(now := t)
  {
  }

  lemma AcquireStep(c: Config, s: State, t: Time, p: PodId)
    requires t > s.now && (Busy(s, p, Cleared) || (Busy(s, p, Inspected) && !Capped(c, s.pods[p].ticker)))
    ensures Step(c, s, Timed(t, Acquire(p))) == AfterAcquire(s, t, p).(now := t)
  {
  }

  // ---------- a background task's events one at a time ----------

  lemma BeginStep(c: Config, s: State, t: Time, p: PodId, id: TaskId)
    requires t > s.now && InFlight(s, p, id) && s.pods[p].inFlight[id].phase.Dispatched?
    ensures Step(c, s, Timed(t, Begin(p, id))) == SetPhase(s, p, id, Executing(t)).(now := t)
  {
  }

  lemma FinishStep(c: Config, s: State, t: Time, p: PodId, id: TaskId, ok: bool, error: string, attempts: int)
    requires t > s.now && InFlight(s, p, id) && s.pods[p].inFlight[id].phase.Executing?
    ensures Step(c, s, Timed(t, Finish(p, id, ok, error, attempts))) ==
      SetPhase(s, p, id, Finished(Outcome(ok, s.pods[p].inFlight[id].phase.startedAt, error, attempts))).(now := t)
  {
  }

  lemma AbortStep(c: Config, s: State, t: Time, p: PodId, id: TaskId)
    requires t > s.now && InFlight(s, p, id) && Breakable(s.pods[p].inFlight[id].phase)
    ensures Step(c, s, Timed(t, Abort(p, id))) == SetPhase(s, p, id, Unlocking(false)).(now := t)
  {
  }

  lemma RecordStep(c: Config, s: State, t: Time, p: PodId, id: TaskId, lost: bool)
    requires t > s.now && InFlight(s, p, id) && s.pods[p].inFlight[id].phase.Finished?
    ensures Step(c, s, Timed(t, Record(p, id, lost))) == AfterRecord(s, p, id, lost).(now := t)
  {
  }

  lemma ReleaseStep(c: Config, s: State, t: Time, p: PodId, id: TaskId, fails: bool)
    requires t > s.now && InFlight(s, p, id) && s.pods[p].inFlight[id].phase.Unlocking?
    ensures Step(c, s, Timed(t, Release(p, id, fails))) ==
      SetPhase(s, p, id, Deleting(s.pods[p].inFlight[id].phase.ok)).(
        now := t, rows := if fails then s.rows else ReleaseLock(s.rows, id, p))
  {
  }

  lemma DeleteStep(c: Config, s: State, t: Time, p: PodId, id: TaskId, fails: bool)
    requires t > s.now && InFlight(s, p, id) && s.pods[p].inFlight[id].phase.Deleting?
    ensures Step(c, s, Timed(t, Delete(p, id, fails))) == SetPhase(s, p, id, Done).(
        now := t, rows := if !fails && Deletes(c, s.pods[p].inFlight[id]) then s.rows - {id} else s.rows)
  {
  }

  lemma CronStepped(c: Config, s: State, t: Time, p: PodId, name: Name, step: CronStep)
    requires t > s.now && p in s.pods && name in c.scheduled && CronEnabled(s, t, p, name, step)
    ensures Step(c, s, Timed(t, Cron(p, name, step))) == AfterCron(s, t, p, name, step).(now := t)
  {
  }

  lemma RetireStep(c: Config, s: State, t: Time, p: PodId, id: TaskId)
    requires t > s.now && InFlight(s, p, id) && s.pods[p].inFlight[id].phase.Done?
    ensures Step(c, s, Timed(t, Retire(p, id))) == s.(now := t, pods := s.pods[p := s.pods[p].(inFlight := s.pods[p].inFlight - {id})])
  {
  }
}
