/**
 What every column of a row means, told by what happened: a row of the table is exactly what
 the submissions, locks, records and releases of its history have made it. From this follow
 what is listed, what is deleted after a run, and what a cleanup takes.
 */
module RowHistory {
  import opened Wrappers
  import opened TaskRows
  import opened TaskProtocol
  import opened TaskInvariants

  /** A lock: who took it, when, and when it expires. */
  datatype Tenure = Tenure(pod: PodId, at: Time, until: Time)

  /**
   What happened to a row id. `kind` and `born`: what entered it and when; `asked`: the last submission; `running`: locked since the last
   record; `lock`: taken and not released; `last`: the last recorded outcome; `since`: the
   outcomes recorded since the last submission; `wanted`: the earliest start that the last
   triggering submission asks for.
   */
  datatype History =
    | Unknown
    | Known(kind: TaskType, born: Time, asked: Option<Event>, running: bool, lock: Option<Tenure>, last: Option<Outcome>, since: seq<Outcome>, wanted: Option<Time>)

  /** The outcome that the event records on the row, past the row's guard. */
  function RecordOn(s: State, e: Event, id: TaskId): Option<Outcome> {
    if id !in s.rows then None
    else if e.Record? && e.id == id && s.rows[id].owner == Some(e.pod) && InFlight(s, e.pod, id) && s.pods[e.pod].inFlight[id].phase.Finished? then
      Some(s.pods[e.pod].inFlight[id].phase.outcome)
    else if e.Cron? && e.step.Report? && s.rows[id].name == e.name && s.rows[id].owner == Some(e.pod) then Some(e.step.outcome)
    else None
  }

  /** The lock that the event takes on the row: there is none, or it has expired. */
  function LockOn(s: State, t: Time, e: Event, id: TaskId): Option<Tenure> {
    if id !in s.rows || !(s.rows[id].owner.None? || s.rows[id].expireAt.None? || s.rows[id].expireAt.value <= t) then None
    else if e.Acquire? && e.pod in s.pods && s.pods[e.pod].ticker.queue != [] && s.pods[e.pod].ticker.queue[0].id == id then
      Some(Tenure(e.pod, t, t + (s.pods[e.pod].ticker.queue[0].timeout + 60) * 1_000_000))
    else if e.Cron? && e.step.Lock? && e.step.id == id then Some(Tenure(e.pod, t, t + e.step.ttl * 1_000_000))
    else None
  }

  /** The release of its owner's run, or that of a schedule of its handler. */
  predicate ReleaseOn(s: State, e: Event, id: TaskId) {
    id in s.rows &&
    ((e.Release? && e.id == id && !e.fails && s.rows[id].owner == Some(e.pod)) ||
     (e.Cron? && e.step.Unlock? && s.rows[id].name == e.name && s.rows[id].owner == Some(e.pod)))
  }

  predicate SubmitsRow(e: Event, id: TaskId) {
    (e.SubmitOneshot? || e.SubmitTriggered?) && e.id == id
  }

  /** Not before the submission, and not within the cooldown of the last recorded run. */
  function WantedAt(c: Config, last: Option<Outcome>, t: Time, e: Event): Option<Time> {
    if !e.SubmitTriggered? then None
    else if last.None? || e.name !in c.cooldowns || last.value.startedAt + c.cooldowns[e.name] * 1_000_000 <= t then Some(t)
    else Some(last.value.startedAt + c.cooldowns[e.name] * 1_000_000)
  }

  function Grown(c: Config, h: History, s: State, t: Time, e: Event, id: TaskId): History {
    match h
    case Unknown =>
      if SubmitsRow(e, id) then Known(if e.SubmitOneshot? then Oneshot else Triggered, t, Some(e), false, None, None, [], WantedAt(c, None, t, e))
      else if e.Cron? && e.step.Lock? && e.step.id == id then Known(Scheduled, t, None, true, Some(Tenure(e.pod, t, t + e.step.ttl * 1_000_000)), None, [], None)
      else h
    case Known(_, _, _, _, _, _, _, _) =>
      if SubmitsRow(e, id) then h.(asked := Some(e), since := [], wanted := WantedAt(c, h.last, t, e))
      else if RecordOn(s, e, id).Some? then h.(running := false, last := RecordOn(s, e, id), since := h.since + [RecordOn(s, e, id).value])
      else if LockOn(s, t, e, id).Some? then h.(running := true, lock := LockOn(s, t, e, id))
      else if ReleaseOn(s, e, id) then h.(lock := None)
      else h
  }

  function HistoryOf(c: Config, start: Time, run: seq<Timed>, id: TaskId): History
    decreases |run|
  {
    if run == [] then Unknown else
      var shorter, te := run[..|run| - 1], run[|run| - 1];
      var s, h := Exec(c, Start(c, start), shorter), HistoryOf(c, start, shorter, id);
      if te.at > s.now && Enabled(c, s, te.at, te.event) then Grown(c, h, s, te.at, te.event, id) else h
  }

  /** Name, key, limit, timeout and request are those of the last submission; a row that nobody submitted is a schedule's. */
  predicate ShowsSubmission(row: Row, h: History)
    requires h.Known?
  {
    row.kind == h.kind && row.createdAt == h.born && row.requestAt == h.wanted &&
    match h.asked
    case None => row.biz == Some(SCHEDULED_BIZ_NAME) && row.maxRuns.None? && row.timeout.None?
    case Some(e) =>
      (e.SubmitOneshot? ==> row.name == e.name && row.biz == e.biz && row.timeout == Some(e.timeout) && row.maxRuns == e.maxRuns) &&
      (e.SubmitTriggered? ==> row.name == e.name && row.biz == Some(e.key) && row.timeout == Some(e.timeout) && row.maxRuns == e.maxRuns)
  }

  /**
   Running exactly from a lock to the next record; otherwise success or failed as the last
   recorded outcome was, and pending without one. run_at is the start of the last recorded
   run; the count and the failure are those since the last submission.
   */
  predicate ShowsResults(row: Row, h: History)
    requires h.Known?
  {
    && row.status == (if h.running then Running else if h.last.None? then Pending else if h.last.value.ok then Success else Failed)
    && row.runAt == (if h.last.None? then None else Some(h.last.value.startedAt))
    && row.runCount == |h.since|
    && row.failure == (if h.since == [] || h.since[|h.since| - 1].ok then None else Some(FailureOf(h.since[|h.since| - 1])))
    && (h.since != [] ==> h.last == Some(h.since[|h.since| - 1]))
  }

  /** An error without a text is reported as unknown. */
  function FailureOf(outcome: Outcome): Failure {
    Failure(if outcome.error == "" then "unknown error" else outcome.error, outcome.startedAt, outcome.attempts)
  }

  predicate ShowsLock(row: Row, h: History)
    requires h.Known?
  {
    match h.lock
    case None => row.owner.None? && row.lockedAt.None? && row.expireAt.None?
    case Some(lock) => row.owner == Some(lock.pod) && row.lockedAt == Some(lock.at) && row.expireAt == Some(lock.until)
  }

  predicate Shows(row: Row, h: History) {
    h.Known? && ShowsSubmission(row, h) && ShowsResults(row, h) && ShowsLock(row, h)
  }

  predicate Told(s: State, id: TaskId, h: History) {
    (h.Unknown? <==> id !in s.past) && (id in s.rows ==> Shows(s.rows[id], h))
  }

  // ---------- every step ----------

  ghost predicate Fires(c: Config, s: State, te: Timed, id: TaskId, h: History) {
    s.rows.Keys <= s.past.Keys && (id in s.rows ==> RowInv(c, s.now, s.rows[id], s.past[id])) && Told(s, id, h) && te.at > s.now && Enabled(c, s, te.at, te.event)
  }

  lemma SubmitTold(c: Config, s: State, te: Timed, id: TaskId, h: History)
    requires Fires(c, s, te, id, h) && (te.event.SubmitOneshot? || te.event.SubmitTriggered?)
    ensures Told(Step(c, s, te), id, Grown(c, h, s, te.at, te.event, id))
  {
  }

  lemma AcquireTold(c: Config, s: State, te: Timed, id: TaskId, h: History)
    requires Fires(c, s, te, id, h) && te.event.Acquire?
    ensures Told(Step(c, s, te), id, Grown(c, h, s, te.at, te.event, id))
  {
    AcquireStep(c, s, te.at, te.event.pod);
    TakenTold(c, s, te.at, te.event, id, h);
  }

  lemma TakenTold(c: Config, s: State, t: Time, e: Event, id: TaskId, h: History)
    requires s.rows.Keys <= s.past.Keys && Told(s, id, h) && e.Acquire? && e.pod in s.pods && s.pods[e.pod].ticker.queue != []
    ensures Told(AfterAcquire(s, t, e.pod), id, Grown(c, h, s, t, e, id))
  {
  }

  lemma RecordTold(c: Config, s: State, te: Timed, id: TaskId, h: History)
    requires Fires(c, s, te, id, h) && te.event.Record?
    ensures Told(Step(c, s, te), id, Grown(c, h, s, te.at, te.event, id))
  {
    RecordStep(c, s, te.at, te.event.pod, te.event.id, te.event.lost);
    OutcomeTold(c, s, AfterRecord(s, te.event.pod, te.event.id, te.event.lost), te.at, te.event, id, h);
  }

  lemma OutcomeTold(c: Config, s: State, n: State, t: Time, e: Event, id: TaskId, h: History)
    requires s.rows.Keys <= s.past.Keys && Told(s, id, h) && e.Record? && InFlight(s, e.pod, e.id) && s.pods[e.pod].inFlight[e.id].phase.Finished?
    requires n.rows == RecordOutcome(s.rows, e.id, e.pod, Reported(s.pods[e.pod].inFlight[e.id].phase.outcome)) && n.past.Keys == s.past.Keys
    ensures Told(n, id, Grown(c, h, s, t, e, id))
  {
  }

  lemma ReleaseTold(c: Config, s: State, te: Timed, id: TaskId, h: History)
    requires Fires(c, s, te, id, h) && te.event.Release?
    ensures Told(Step(c, s, te), id, Grown(c, h, s, te.at, te.event, id))
  {
    ReleaseStep(c, s, te.at, te.event.pod, te.event.id, te.event.fails);
  }

  lemma RemovalTold(c: Config, s: State, te: Timed, id: TaskId, h: History)
    requires Fires(c, s, te, id, h) && (te.event.Delete? || te.event.Cleanup?)
    ensures Told(Step(c, s, te), id, Grown(c, h, s, te.at, te.event, id))
  {
  }

  lemma CronTold(c: Config, s: State, te: Timed, id: TaskId, h: History)
    requires Fires(c, s, te, id, h) && te.event.Cron?
    ensures Told(Step(c, s, te), id, Grown(c, h, s, te.at, te.event, id))
  {
    CronStepped(c, s, te.at, te.event.pod, te.event.name, te.event.step);
    if te.event.step.Lock? {
      LockTold(c, s, te.at, te.event, id, h);
    } else {
      WriteTold(c, s, te.at, te.event, id, h);
    }
  }

  lemma LockTold(c: Config, s: State, t: Time, e: Event, id: TaskId, h: History)
    requires s.rows.Keys <= s.past.Keys && Told(s, id, h) && e.Cron? && e.step.Lock? && e.pod in s.pods && CronEnabled(s, t, e.pod, e.name, e.step)
    ensures Told(AfterCron(s, t, e.pod, e.name, e.step), id, Grown(c, h, s, t, e, id))
  {
  }

  lemma WriteTold(c: Config, s: State, t: Time, e: Event, id: TaskId, h: History)
    requires s.rows.Keys <= s.past.Keys && Told(s, id, h) && e.Cron? && !e.step.Lock? && e.pod in s.pods && CronEnabled(s, t, e.pod, e.name, e.step)
    ensures Told(AfterCron(s, t, e.pod, e.name, e.step), id, Grown(c, h, s, t, e, id))
  {
  }

  lemma QuietTold(c: Config, s: State, te: Timed, id: TaskId, h: History)
    requires Fires(c, s, te, id, h) && !Writes(te.event)
    ensures Told(Step(c, s, te), id, Grown(c, h, s, te.at, te.event, id))
  {
    TableUntouched(c, s, te);
  }

  lemma StepTold(c: Config, s: State, te: Timed, id: TaskId, h: History)
    requires Fires(c, s, te, id, h)
    ensures Told(Step(c, s, te), id, Grown(c, h, s, te.at, te.event, id))
  {
    if !Writes(te.event) {
      QuietTold(c, s, te, id, h);
    } else if te.event.SubmitOneshot? || te.event.SubmitTriggered? {
      SubmitTold(c, s, te, id, h);
    } else if te.event.Acquire? {
      AcquireTold(c, s, te, id, h);
    } else if te.event.Record? {
      RecordTold(c, s, te, id, h);
    } else if te.event.Cron? {
      CronTold(c, s, te, id, h);
    } else if te.event.Release? {
      ReleaseTold(c, s, te, id, h);
    } else {
      RemovalTold(c, s, te, id, h);
    }
  }

  lemma {:induction false} ToldAlways(c: Config, start: Time, run: seq<Timed>, id: TaskId)
    ensures Told(Exec(c, Start(c, start), run), id, HistoryOf(c, start, run, id))
    decreases |run|
  {
    if run != [] {
      var shorter, te := run[..|run| - 1], run[|run| - 1];
      var s := Exec(c, Start(c, start), shorter);
      ToldAlways(c, start, shorter, id);
      InvAlways(c, start, shorter);
      if te.at > s.now && Enabled(c, s, te.at, te.event) {
        StepTold(c, s, te, id, HistoryOf(c, start, shorter, id));
      }
    }
  }

  /** In every run, for every handler, all columns of every row are what its history makes them. */
  lemma {:induction false} RowsShowTheirHistory(c: Config, start: Time, run: seq<Timed>, id: TaskId)
    requires id in Exec(c, Start(c, start), run).rows
    ensures Shows(Exec(c, Start(c, start), run).rows[id], HistoryOf(c, start, run, id))
  {
    ToldAlways(c, start, run, id);
  }

  /** What counts against the cap: the handler's oneshot rows that were locked, have not recorded since, and whose lock has not expired. */
  lemma {:induction false} LiveExactly(c: Config, start: Time, run: seq<Timed>, name: Name, t: Time, id: TaskId)
    ensures var s, h := Exec(c, Start(c, start), run), HistoryOf(c, start, run, id);
      id in LiveIds(s.rows, name, t) <==>
        id in s.rows && s.rows[id].name == name && h.Known? && h.kind == Oneshot && h.running && h.lock.Some? && t < h.lock.value.until
  {
    ToldAlways(c, start, run, id);
  }
}
