/**
 The invariant of the task protocol, kept by every event of every interleaving, including
 crashes, cancelled runs and store calls that fail. The results in the files that import this
 one are read off from it.

 The scheduled runner records and releases by handler name, so it also writes rows of other
 runners whose handler has the same name. Whose lock and whose results a row shows, the
 invariant says only if its handler is not scheduled; ScheduledClash.dfy shows why.
 */
module TaskInvariants {
  import opened Wrappers
  import opened TaskRows
  import opened TaskProtocol

  /** The row belongs to a handler that has no schedule. */
  predicate Plain(c: Config, s: State, id: TaskId) {
    id in s.rows && s.rows[id].name !in c.scheduled
  }

  /** The row that the schedule of its handler locks. */
  predicate KeyOfSchedule(c: Config, row: Row) {
    row.name in c.scheduled && row.biz == Some(SCHEDULED_BIZ_NAME)
  }

  predicate RowInv(c: Config, now: Time, row: Row, past: Past) {
    && row.kind == past.kind && row.name == past.name && past.lastSubmit <= now
    && (row.owner.None? <==> row.expireAt.None?)
    && (row.owner.None? <==> row.lockedAt.None?)
    && (row.status == Pending ==> row.owner.None? && row.runAt.None?)
    && (row.runAt.Some? ==> row.runAt.value <= now)
    && (row.kind == Oneshot ==> row.name !in c.cooldowns && (row.status == Success || row.status == Failed ==> row.runCount >= 1))
    && (row.kind == Triggered ==> row.name in c.cooldowns && row.requestAt.Some? && past.lastSubmit <= row.requestAt.value)
    && (row.name !in c.scheduled ==> row.kind != Scheduled && (row.runAt.Some? ==> row.runAt.value in past.starts))
  }

  /** The queue holds distinct, known rows, and what the local checks found still holds for the head. */
  ghost predicate TickerInv(c: Config, s: State, p: PodId)
    requires p in s.pods
  {
    var ticker := s.pods[p].ticker;
    && (forall i, j :: 0 <= i < j < |ticker.queue| ==> ticker.queue[i].id != ticker.queue[j].id)
    && (forall i :: 0 <= i < |ticker.queue| ==> EntryInv(s, ticker.kind, ticker.queue[i]))
    && (ticker.queue != [] ==> ticker.listedAt <= s.now)
    && (ticker.stage != Fresh ==>
          ticker.queue != [] && ticker.queue[0].id !in s.pods[p].inFlight &&
          (p, ticker.queue[0].name) in c.registered &&
          (Capped(c, ticker) ==> |LocalIds(s.pods[p], ticker.queue[0].name)| < c.caps[ticker.queue[0].name]))
  }

  predicate EntryInv(s: State, kind: TaskType, e: Entry) {
    e.id in s.past && s.past[e.id].kind == kind && s.past[e.id].name == e.name
  }

  predicate PhaseInv(now: Time, run: Run) {
    && run.listedAt < run.acquiredAt <= now
    && (run.phase.Executing? ==> run.acquiredAt < run.phase.startedAt <= now)
    && (run.phase.Finished? ==> run.acquiredAt < run.phase.outcome.startedAt <= now)
  }

  function Ttl(run: Run): int {
    run.timeout + LOCK_TTL_BUFFER
  }

  /** The latest acquisition of its row, not yet released. */
  predicate Current(s: State, id: TaskId, run: Run)
    requires id in s.past
  {
    run.epoch == s.past[id].acquisitions && Unreleased(run.phase)
  }

  /** The heart: until its run releases, the owner column names this pod exactly while the run is the latest acquisition. */
  predicate LockInv(s: State, p: PodId, id: TaskId, run: Run)
    requires id in s.past && id in s.rows
  {
    var row := s.rows[id];
    && (Unreleased(run.phase) ==> (row.owner == Some(p) <==> run.epoch == s.past[id].acquisitions))
    && (row.owner == Some(p) && Unreleased(run.phase) ==> row.expireAt == Some(run.acquiredAt + Ttl(run) * SECOND))
    && (row.owner == Some(p) && Unrecorded(run.phase) ==>
          row.status == Running && (row.runAt.Some? ==> row.runAt.value < run.acquiredAt))
  }

  predicate RunInv(c: Config, s: State, p: PodId, id: TaskId)
    requires InFlight(s, p, id)
  {
    var run := s.pods[p].inFlight[id];
    && id in s.past && run.epoch <= s.past[id].acquisitions
    && run.kind == s.past[id].kind && run.name == s.past[id].name
    && PhaseInv(s.now, run)
    && (Plain(c, s, id) ==> LockInv(s, p, id, run))
  }

  ghost predicate RowsInv(c: Config, s: State) {
    && s.rows.Keys <= s.past.Keys
    && forall id :: id in s.rows ==> RowInv(c, s.now, s.rows[id], s.past[id])
  }

  ghost predicate TickersInv(c: Config, s: State) {
    forall p :: p in s.pods ==> TickerInv(c, s, p)
  }

  ghost predicate RunsInv(c: Config, s: State) {
    forall p, id :: InFlight(s, p, id) ==> RunInv(c, s, p, id)
  }

  /** No two runs of a row share an acquisition. */
  ghost predicate EpochsInv(s: State) {
    forall p, q, id :: p != q && InFlight(s, p, id) && InFlight(s, q, id) ==>
      s.pods[p].inFlight[id].epoch != s.pods[q].inFlight[id].epoch
  }

  ghost predicate Inv(c: Config, s: State) {
    s.pods.Keys == c.pods && RowsInv(c, s) && TickersInv(c, s) && RunsInv(c, s) && EpochsInv(s)
  }

  // ---------- frames ----------

  /** Row ids are never forgotten or reused, and keep their kind and name. */
  ghost predicate Grows(s: State, n: State) {
    && s.now <= n.now
    && forall id :: id in s.past ==> id in n.past && n.past[id].kind == s.past[id].kind && n.past[id].name == s.past[id].name
  }

  /** A pod whose ticker did not move and that gained no run keeps its ticker's invariant. */
  lemma TickerFrame(c: Config, s: State, n: State, p: PodId)
    requires p in s.pods && p in n.pods && TickerInv(c, s, p) && Grows(s, n)
    requires n.pods[p].ticker == s.pods[p].ticker
    requires forall id :: id in n.pods[p].inFlight ==>
      id in s.pods[p].inFlight && n.pods[p].inFlight[id].(phase := Done) == s.pods[p].inFlight[id].(phase := Done)
    ensures TickerInv(c, n, p)
  {
    var ticker := s.pods[p].ticker;
    forall i | 0 <= i < |ticker.queue| ensures EntryInv(n, ticker.kind, ticker.queue[i]) {
      assert EntryInv(s, ticker.kind, ticker.queue[i]);
    }
    if ticker.stage != Fresh && Capped(c, ticker) {
      LocalIdsShrink(s.pods[p], n.pods[p], ticker.queue[0].name);
    }
  }

  lemma LocalIdsShrink(pod: Pod, less: Pod, name: Name)
    requires forall id :: id in less.inFlight ==>
      id in pod.inFlight && less.inFlight[id].(phase := Done) == pod.inFlight[id].(phase := Done)
    ensures LocalIds(less, name) <= LocalIds(pod, name)
    ensures |LocalIds(less, name)| <= |LocalIds(pod, name)|
  {
    forall id | id in LocalIds(less, name) ensures id in LocalIds(pod, name) {
      assert less.inFlight[id].(phase := Done).kind == pod.inFlight[id].(phase := Done).kind;
      assert less.inFlight[id].(phase := Done).name == pod.inFlight[id].(phase := Done).name;
    }
    SubsetSize(LocalIds(less, name), LocalIds(pod, name));
  }

  /** A run is not affected by what happens to other rows, or by its own row's deletion. */
  lemma RunFrame(c: Config, s: State, n: State, p: PodId, id: TaskId)
    requires InFlight(s, p, id) && RunInv(c, s, p, id) && Grows(s, n)
    requires InFlight(n, p, id) && n.pods[p].inFlight[id] == s.pods[p].inFlight[id]
    requires id in n.past && n.past[id].acquisitions == s.past[id].acquisitions
    requires Plain(c, n, id) ==> id in s.rows && n.rows[id] == s.rows[id]
    ensures RunInv(c, n, p, id)
  {
  }

  // ---------- every run keeps the invariant ----------

  lemma {:induction false} InvAlways(c: Config, start: Time, run: seq<Timed>)
    ensures Inv(c, Exec(c, Start(c, start), run))
    decreases |run|
  {
    if run != [] {
      InvAlways(c, start, run[..|run| - 1]);
      StepKeepsInv(c, Exec(c, Start(c, start), run[..|run| - 1]), run[|run| - 1]);
    }
  }

  lemma StepKeepsInv(c: Config, s: State, te: Timed)
    requires Inv(c, s)
    ensures Inv(c, Step(c, s, te))
  {
    var t, e := te.at, te.event;
    if t > s.now && Enabled(c, s, t, e) {
      match e
      case SubmitOneshot(_, _, _, _, _) => SubmitKeepsInv(c, s, te);
      case SubmitTriggered(_, _, _, _, _) => SubmitKeepsInv(c, s, te);
      case List(_, _, _) => TickKeepsInv(c, s, te);
      case Inspect(_) => CheckKeepsInv(c, s, te);
      case CountRunning(_) => CheckKeepsInv(c, s, te);
      case Acquire(_) => AcquireKeepsInv(c, s, te);
      case Abandon(_) => TickKeepsInv(c, s, te);
      case Begin(_, _) => PhaseKeepsInv(c, s, te);
      case Finish(_, _, _, _, _) => PhaseKeepsInv(c, s, te);
      case Record(_, _, _) => RecordKeepsInv(c, s, te);
      case Release(_, _, _) => ReleaseKeepsInv(c, s, te);
      case Delete(_, _, _) => DeleteKeepsInv(c, s, te);
      case Retire(_, _) => RetireKeepsInv(c, s, te);
      case Abort(_, _) => PhaseKeepsInv(c, s, te);
      case Cron(_, _, _) => CronKeepsInv(c, s, te);
      case Crash(_) => RetireKeepsInv(c, s, te);
      case Cleanup => CleanupKeepsInv(c, s, te);
    }
  }

  ghost predicate Fires(c: Config, s: State, te: Timed) {
    Inv(c, s) && te.at > s.now && Enabled(c, s, te.at, te.event)
  }

  lemma SubmitKeepsInv(c: Config, s: State, te: Timed)
    requires Fires(c, s, te) && (te.event.SubmitOneshot? || te.event.SubmitTriggered?)
    ensures Inv(c, Step(c, s, te))
  {
    var n := Step(c, s, te);
    SubmittedRows(c, s, te);
    forall p | p in n.pods ensures TickerInv(c, n, p) {
      TickerFrame(c, s, n, p);
    }
    forall p, id | InFlight(n, p, id) ensures RunInv(c, n, p, id) {
      assert RunInv(c, s, p, id);
      if id != te.event.id {
        RunFrame(c, s, n, p, id);
      }
    }
  }

  lemma SubmittedRows(c: Config, s: State, te: Timed)
    requires Fires(c, s, te) && (te.event.SubmitOneshot? || te.event.SubmitTriggered?)
    ensures RowsInv(c, Step(c, s, te)) && Grows(s, Step(c, s, te)) && Step(c, s, te).pods == s.pods
  {
    var n := Step(c, s, te);
    assert te.event.id in s.rows ==> RowInv(c, s.now, s.rows[te.event.id], s.past[te.event.id]);
    assert RowInv(c, n.now, n.rows[te.event.id], n.past[te.event.id]);
  }

  /** An event of one pod's ticker that leaves the table alone. */
  lemma TickStepKeepsInv(c: Config, s: State, n: State, p: PodId)
    requires Inv(c, s) && s.now < n.now && p in s.pods
    requires n.rows == s.rows && n.past == s.past
    requires p in n.pods && n.pods == s.pods[p := s.pods[p].(ticker := n.pods[p].ticker)]
    requires TickerInv(c, n, p)
    ensures Inv(c, n)
  {
    forall q | q in n.pods ensures TickerInv(c, n, q) {
      if q != p {
        TickerFrame(c, s, n, q);
      }
    }
    forall q, id | InFlight(n, q, id) ensures InFlight(s, q, id) && n.pods[q].inFlight[id] == s.pods[q].inFlight[id] && RunInv(c, n, q, id) {
      RunFrame(c, s, n, q, id);
    }
  }

  lemma TickKeepsInv(c: Config, s: State, te: Timed)
    requires Fires(c, s, te) && (te.event.List? || te.event.Abandon?)
    ensures Inv(c, Step(c, s, te))
  {
    TickStepKeepsInv(c, s, Step(c, s, te), te.event.pod);
  }

  lemma CheckKeepsInv(c: Config, s: State, te: Timed)
    requires Fires(c, s, te) && (te.event.Inspect? || te.event.CountRunning?)
    ensures Inv(c, Step(c, s, te))
  {
    MovedTicker(c, s, te.at, te.event.pod, if te.event.Inspect? then Inspected else Cleared);
    TickStepKeepsInv(c, s, Step(c, s, te), te.event.pod);
  }

  /** The two ways on from the head of the queue: past it, or one check further. */
  lemma MovedTicker(c: Config, s: State, t: Time, p: PodId, stage: Stage)
    requires Inv(c, s) && t > s.now && p in s.pods && s.pods[p].ticker.queue != []
    ensures TickerInv(c, Skip(s, p).(now := t), p)
    ensures s.pods[p].ticker.stage != Fresh || !Rejected(c, p, s.pods[p]) ==> TickerInv(c, Advance(s, p, stage).(now := t), p)
  {
    assert TickerInv(c, s, p);
    var ticker := s.pods[p].ticker;
    var skipped := Skip(s, p).(now := t);
    forall i | 0 <= i < |ticker.queue| - 1 ensures EntryInv(skipped, ticker.kind, ticker.queue[1..][i]) {
      assert EntryInv(s, ticker.kind, ticker.queue[i + 1]);
    }
    var further := Advance(s, p, stage).(now := t);
    forall i | 0 <= i < |ticker.queue| ensures EntryInv(further, ticker.kind, ticker.queue[i]) {
      assert EntryInv(s, ticker.kind, ticker.queue[i]);
    }
  }

  lemma AcquireKeepsInv(c: Config, s: State, te: Timed)
    requires Fires(c, s, te) && te.event.Acquire?
    ensures Inv(c, Step(c, s, te))
  {
    var n, p := Step(c, s, te), te.event.pod;
    var ticker := s.pods[p].ticker;
    var head := ticker.queue[0];
    assert TickerInv(c, s, p) && EntryInv(s, ticker.kind, head);
    forall i | 0 <= i < |n.pods[p].ticker.queue| ensures EntryInv(n, ticker.kind, n.pods[p].ticker.queue[i]) {
      assert EntryInv(s, ticker.kind, ticker.queue[i + 1]);
    }
    if head.id in s.rows && LockFree(s.rows[head.id], te.at) {
      TakenKeepsInv(c, s, n, te.at, p);
    } else {
      TickStepKeepsInv(c, s, n, p);
    }
  }

  ghost predicate Takes(c: Config, s: State, n: State, t: Time, p: PodId) {
    && Inv(c, s) && t > s.now && p in s.pods && s.pods[p].ticker.queue != []
    && s.pods[p].ticker.queue[0].id !in s.pods[p].inFlight
    && s.pods[p].ticker.queue[0].id in s.rows && LockFree(s.rows[s.pods[p].ticker.queue[0].id], t)
    && n == AfterAcquire(s, t, p).(now := t)
  }

  lemma TakenKeepsInv(c: Config, s: State, n: State, t: Time, p: PodId)
    requires Takes(c, s, n, t, p) && TickerInv(c, n, p)
    ensures Inv(c, n)
  {
    TakenRows(c, s, n, t, p);
    TakenTickers(c, s, n, t, p);
    TakenRuns(c, s, n, t, p);
    TakenEpochs(c, s, n, t, p);
  }

  lemma TakenRows(c: Config, s: State, n: State, t: Time, p: PodId)
    requires Takes(c, s, n, t, p)
    ensures n.pods.Keys == c.pods && RowsInv(c, n)
  {
  }

  lemma TakenTickers(c: Config, s: State, n: State, t: Time, p: PodId)
    requires Takes(c, s, n, t, p) && TickerInv(c, n, p)
    ensures TickersInv(c, n)
  {
    forall q | q in n.pods ensures TickerInv(c, n, q) {
      if q != p {
        TickerFrame(c, s, n, q);
      }
    }
  }

  lemma TakenRuns(c: Config, s: State, n: State, t: Time, p: PodId)
    requires Takes(c, s, n, t, p)
    ensures RunsInv(c, n)
  {
    var head := s.pods[p].ticker.queue[0];
    assert TickerInv(c, s, p) && EntryInv(s, s.pods[p].ticker.kind, head);
    forall q, id | InFlight(n, q, id) ensures RunInv(c, n, q, id) {
      if id != head.id {
        assert InFlight(s, q, id);
        RunFrame(c, s, n, q, id);
      } else if q != p {
        assert RunInv(c, s, q, id);
      }
    }
  }

  lemma TakenEpochs(c: Config, s: State, n: State, t: Time, p: PodId)
    requires Takes(c, s, n, t, p)
    ensures EpochsInv(n)
  {
    var head := s.pods[p].ticker.queue[0];
    forall q, r, id | q != r && InFlight(n, q, id) && InFlight(n, r, id)
      ensures n.pods[q].inFlight[id].epoch != n.pods[r].inFlight[id].epoch
    {
      if id != head.id || (q != p && r != p) {
        assert InFlight(s, q, id) && InFlight(s, r, id);
      } else {
        assert q != p ==> RunInv(c, s, q, id);
        assert r != p ==> RunInv(c, s, r, id);
      }
    }
  }

  /** Only the run of `p` on row `id` moves, and with it at most that row. */
  ghost predicate RunStep(s: State, n: State, p: PodId, id: TaskId) {
    && InFlight(s, p, id) && InFlight(n, p, id)
    && s.now < n.now
    && n.pods == s.pods[p := s.pods[p].(inFlight := s.pods[p].inFlight[id := n.pods[p].inFlight[id]])]
    && n.pods[p].inFlight[id].(phase := Done) == s.pods[p].inFlight[id].(phase := Done)
    && n.past.Keys == s.past.Keys && Grows(s, n)
    && (forall x :: x in n.past && x != id ==> n.past[x] == s.past[x])
    && (forall x :: x in n.rows ==> x in s.rows && (x != id ==> n.rows[x] == s.rows[x]))
  }

  lemma RunStepTickers(c: Config, s: State, n: State, p: PodId, id: TaskId)
    requires Inv(c, s) && RunStep(s, n, p, id)
    ensures TickersInv(c, n)
  {
    forall q | q in n.pods ensures TickerInv(c, n, q) {
      TickerFrame(c, s, n, q);
    }
  }

  lemma RunStepRuns(c: Config, s: State, n: State, p: PodId, id: TaskId)
    requires Inv(c, s) && RunStep(s, n, p, id)
    requires forall q :: InFlight(n, q, id) ==> RunInv(c, n, q, id)
    ensures RunsInv(c, n)
  {
    forall q, x | InFlight(n, q, x) ensures RunInv(c, n, q, x) {
      assert InFlight(s, q, x);
      if x != id {
        RunFrame(c, s, n, q, x);
      }
    }
  }

  lemma RunStepEpochs(c: Config, s: State, n: State, p: PodId, id: TaskId)
    requires Inv(c, s) && RunStep(s, n, p, id)
    ensures EpochsInv(n)
  {
    forall q, r, x | q != r && InFlight(n, q, x) && InFlight(n, r, x)
      ensures n.pods[q].inFlight[x].epoch != n.pods[r].inFlight[x].epoch
    {
      assert InFlight(s, q, x) && InFlight(s, r, x);
      assert forall y :: y in n.pods[p].inFlight ==>
        n.pods[p].inFlight[y].(phase := Done).epoch == s.pods[p].inFlight[y].(phase := Done).epoch;
    }
  }

  lemma RunStepKeepsInv(c: Config, s: State, n: State, p: PodId, id: TaskId)
    requires Inv(c, s) && RunStep(s, n, p, id)
    requires id in n.rows ==> RowInv(c, n.now, n.rows[id], n.past[id])
    requires forall q :: InFlight(n, q, id) ==> RunInv(c, n, q, id)
    ensures Inv(c, n)
  {
    RunStepRows(c, s, n, p, id);
    RunStepTickers(c, s, n, p, id);
    RunStepRuns(c, s, n, p, id);
    RunStepEpochs(c, s, n, p, id);
  }

  lemma RunStepRows(c: Config, s: State, n: State, p: PodId, id: TaskId)
    requires Inv(c, s) && RunStep(s, n, p, id)
    requires id in n.rows ==> RowInv(c, n.now, n.rows[id], n.past[id])
    ensures RowsInv(c, n) && n.pods.Keys == c.pods
  {
    forall x | x in n.rows && x != id ensures x in n.past && RowInv(c, n.now, n.rows[x], n.past[x]) {
      assert RowInv(c, s.now, s.rows[x], s.past[x]);
    }
  }

  /** A run moves on without touching the table, neither releasing nor going back before its record. */
  lemma SetPhaseKeepsInv(c: Config, s: State, t: Time, p: PodId, id: TaskId, phase: Phase)
    requires Inv(c, s) && t > s.now && InFlight(s, p, id)
    requires var was := s.pods[p].inFlight[id];
      (Unreleased(phase) ==> Unreleased(was.phase)) && (Unrecorded(phase) ==> Unrecorded(was.phase)) &&
      PhaseInv(t, was.(phase := phase))
    ensures Inv(c, SetPhase(s, p, id, phase).(now := t))
  {
    var n := SetPhase(s, p, id, phase).(now := t);
    forall q | InFlight(n, q, id) ensures RunInv(c, n, q, id) {
      assert RunInv(c, s, q, id);
    }
    RunStepKeepsInv(c, s, n, p, id);
  }

  lemma PhaseKeepsInv(c: Config, s: State, te: Timed)
    requires Fires(c, s, te) && (te.event.Begin? || te.event.Finish? || te.event.Abort?)
    ensures Inv(c, Step(c, s, te))
  {
    var p, id := te.event.pod, te.event.id;
    assert RunInv(c, s, p, id);
    match te.event
    case Begin(_, _) => SetPhaseKeepsInv(c, s, te.at, p, id, Executing(te.at));
    case Finish(_, _, ok, error, attempts) =>
      SetPhaseKeepsInv(c, s, te.at, p, id, Finished(Outcome(ok, s.pods[p].inFlight[id].phase.startedAt, error, attempts)));
    case Abort(_, _) => SetPhaseKeepsInv(c, s, te.at, p, id, Unlocking(false));
  }

  /** A deletion only removes obligations. */
  lemma ForgetKeepsInv(c: Config, s: State, rows: Table)
    requires Inv(c, s)
    requires forall id :: id in rows ==> id in s.rows && rows[id] == s.rows[id]
    ensures Inv(c, s.(rows := rows))
  {
    var n := s.(rows := rows);
    forall p | p in n.pods ensures TickerInv(c, n, p) {
      TickerFrame(c, s, n, p);
    }
    forall p, id | InFlight(n, p, id) ensures RunInv(c, n, p, id) {
      assert InFlight(s, p, id);
      RunFrame(c, s, n, p, id);
    }
  }

  lemma DeleteKeepsInv(c: Config, s: State, te: Timed)
    requires Fires(c, s, te) && te.event.Delete?
    ensures Inv(c, Step(c, s, te))
  {
    var p, id := te.event.pod, te.event.id;
    assert RunInv(c, s, p, id);
    SetPhaseKeepsInv(c, s, te.at, p, id, Done);
    ForgetKeepsInv(c, SetPhase(s, p, id, Done).(now := te.at), Step(c, s, te).rows);
  }

  lemma RecordKeepsInv(c: Config, s: State, te: Timed)
    requires Fires(c, s, te) && te.event.Record?
    ensures Inv(c, Step(c, s, te))
  {
    var p, id := te.event.pod, te.event.id;
    assert RunInv(c, s, p, id);
    if OwnedBy(s.rows, id, p) {
      RecordedKeepsInv(c, s, te);
    } else {
      SetPhaseKeepsInv(c, s, te.at, p, id, Unlocking(s.pods[p].inFlight[id].phase.outcome.ok && !te.event.lost));
    }
  }

  lemma RecordedKeepsInv(c: Config, s: State, te: Timed)
    requires Fires(c, s, te) && te.event.Record? && OwnedBy(s.rows, te.event.id, te.event.pod)
    ensures Inv(c, Step(c, s, te))
  {
    var n, p, id := Step(c, s, te), te.event.pod, te.event.id;
    RecordStep(c, s, te.at, p, id, te.event.lost);
    assert RunInv(c, s, p, id);
    forall q | InFlight(n, q, id) ensures RunInv(c, n, q, id) {
      RecordedRun(c, s, te.at, p, id, te.event.lost, q);
    }
    RunStepKeepsInv(c, s, n, p, id);
  }

  lemma RecordedRun(c: Config, s: State, t: Time, p: PodId, id: TaskId, lost: bool, q: PodId)
    requires Inv(c, s) && t > s.now && InFlight(s, p, id) && s.pods[p].inFlight[id].phase.Finished? && OwnedBy(s.rows, id, p)
    requires InFlight(AfterRecord(s, p, id, lost).(now := t), q, id)
    ensures RunInv(c, AfterRecord(s, p, id, lost).(now := t), q, id)
  {
    assert RunInv(c, s, p, id) && RunInv(c, s, q, id);
  }

  lemma ReleaseKeepsInv(c: Config, s: State, te: Timed)
    requires Fires(c, s, te) && te.event.Release?
    ensures Inv(c, Step(c, s, te))
  {
    var p, id := te.event.pod, te.event.id;
    assert RunInv(c, s, p, id);
    if te.event.fails || !OwnedBy(s.rows, id, p) {
      SetPhaseKeepsInv(c, s, te.at, p, id, Deleting(s.pods[p].inFlight[id].phase.ok));
    } else {
      ReleasedKeepsInv(c, s, te.at, p, id);
    }
  }

  lemma ReleasedKeepsInv(c: Config, s: State, t: Time, p: PodId, id: TaskId)
    requires Inv(c, s) && t > s.now && InFlight(s, p, id) && s.pods[p].inFlight[id].phase.Unlocking? && OwnedBy(s.rows, id, p)
    ensures Inv(c, SetPhase(s, p, id, Deleting(s.pods[p].inFlight[id].phase.ok)).(now := t, rows := ReleaseLock(s.rows, id, p)))
  {
    var n := SetPhase(s, p, id, Deleting(s.pods[p].inFlight[id].phase.ok)).(now := t, rows := ReleaseLock(s.rows, id, p));
    assert RunInv(c, s, p, id);
    forall q | InFlight(n, q, id) ensures RunInv(c, n, q, id) {
      assert RunInv(c, s, q, id);
      assert q != p ==> s.pods[q].inFlight[id].epoch != s.pods[p].inFlight[id].epoch;
    }
    RunStepKeepsInv(c, s, n, p, id);
  }

  /** A pod that only loses runs, or everything. */
  ghost predicate PodLoses(s: State, n: State, p: PodId) {
    && p in s.pods && p in n.pods && n.rows == s.rows && n.past == s.past && s.now <= n.now
    && n.pods == s.pods[p := n.pods[p]] && Shrinks(s.pods[p], n.pods[p])
    && (n.pods[p].ticker == s.pods[p].ticker || n.pods[p] == IDLE)
  }

  predicate Shrinks(pod: Pod, next: Pod) {
    forall id :: id in next.inFlight ==> id in pod.inFlight && next.inFlight[id] == pod.inFlight[id]
  }

  lemma LosingKeepsInv(c: Config, s: State, n: State, p: PodId)
    requires Inv(c, s) && PodLoses(s, n, p)
    ensures Inv(c, n)
  {
    forall q | q in n.pods ensures TickerInv(c, n, q) {
      if n.pods[q] != IDLE {
        TickerFrame(c, s, n, q);
      }
    }
    forall q, id | InFlight(n, q, id) ensures InFlight(s, q, id) && n.pods[q].inFlight[id] == s.pods[q].inFlight[id] && RunInv(c, n, q, id) {
      RunFrame(c, s, n, q, id);
    }
  }

  lemma RetireKeepsInv(c: Config, s: State, te: Timed)
    requires Fires(c, s, te) && (te.event.Retire? || te.event.Crash?)
    ensures Inv(c, Step(c, s, te))
  {
    LosingKeepsInv(c, s, Step(c, s, te), te.event.pod);
  }

  lemma CleanupKeepsInv(c: Config, s: State, te: Timed)
    requires Fires(c, s, te) && te.event.Cleanup?
    ensures Inv(c, Step(c, s, te))
  {
    ForgetKeepsInv(c, s, Cleaned(s.rows, c.retention, te.at));
    LaterKeepsInv(c, s.(rows := Cleaned(s.rows, c.retention, te.at)), te.at);
  }

  /** The scheduled runner: rows of handlers without a schedule stay as they are. */
  ghost predicate CronKeeps(c: Config, s: State, n: State) {
    && RowsInv(c, n) && Grows(s, n) && (forall id :: id in s.past ==> n.past[id] == s.past[id])
    && (forall id :: Plain(c, n, id) ==> id in s.rows && n.rows[id] == s.rows[id])
    && n.pods.Keys == s.pods.Keys
    && (forall p :: p in s.pods ==> n.pods[p].ticker == s.pods[p].ticker && n.pods[p].inFlight == s.pods[p].inFlight)
  }

  lemma CronLocks(c: Config, s: State, t: Time, p: PodId, name: Name, id: TaskId, ttl: int)
    requires Inv(c, s) && t > s.now && p in s.pods && name in c.scheduled && CronEnabled(s, t, p, name, Lock(id, ttl))
    ensures CronKeeps(c, s, AfterCron(s, t, p, name, Lock(id, ttl)).(now := t))
  {
    var n := AfterCron(s, t, p, name, Lock(id, ttl)).(now := t);
    CronPods(s, t, p, name, Lock(id, ttl));
    if id in s.rows {
      assert RowInv(c, s.now, s.rows[id], s.past[id]);
      assert RowInv(c, t, n.rows[id], n.past[id]);
    } else {
      assert RowInv(c, t, n.rows[id], n.past[id]) && n.rows[id].name == name;
    }
    OneRowWritten(c, s, n, id);
  }

  lemma OneRowWritten(c: Config, s: State, n: State, id: TaskId)
    requires RowsInv(c, s) && s.now < n.now && id in n.past && (id in s.past ==> n.past == s.past) && n.past == s.past[id := n.past[id]]
    requires id in n.rows && n.rows == s.rows[id := n.rows[id]] && RowInv(c, n.now, n.rows[id], n.past[id])
    requires n.rows[id].name in c.scheduled
    ensures RowsInv(c, n) && Grows(s, n) && forall x :: x in s.past ==> n.past[x] == s.past[x]
    ensures forall x :: Plain(c, n, x) ==> x in s.rows && n.rows[x] == s.rows[x]
  {
    forall x | x in n.rows ensures x in n.past && RowInv(c, n.now, n.rows[x], n.past[x]) {
      if x != id {
        assert RowInv(c, s.now, s.rows[x], s.past[x]);
      }
    }
  }

  lemma CronPods(s: State, t: Time, p: PodId, name: Name, step: CronStep)
    requires p in s.pods && CronEnabled(s, t, p, name, step)
    ensures var n := AfterCron(s, t, p, name, step);
      n.pods.Keys == s.pods.Keys &&
      forall q :: q in s.pods ==> n.pods[q].ticker == s.pods[q].ticker && n.pods[q].inFlight == s.pods[q].inFlight
  {
  }

  lemma CronWrites(c: Config, s: State, t: Time, p: PodId, name: Name, step: CronStep)
    requires Inv(c, s) && t > s.now && p in s.pods && name in c.scheduled && CronEnabled(s, t, p, name, step) && !step.Lock?
    ensures CronKeeps(c, s, AfterCron(s, t, p, name, step).(now := t))
  {
    CronPods(s, t, p, name, step);
    if step.Report? {
      CronReports(c, s, t, p, name, step.outcome);
    } else {
      CronUnlocks(c, s, t, p, name);
    }
  }

  lemma CronReports(c: Config, s: State, t: Time, p: PodId, name: Name, outcome: Outcome)
    requires Inv(c, s) && t > s.now && p in s.pods && name in c.scheduled && CronEnabled(s, t, p, name, Report(outcome))
    ensures var n := AfterCron(s, t, p, name, Report(outcome)).(now := t);
      RowsInv(c, n) && n.past == s.past && forall id :: Plain(c, n, id) ==> id in s.rows && n.rows[id] == s.rows[id]
  {
    var n := AfterCron(s, t, p, name, Report(outcome)).(now := t);
    forall id | id in n.rows ensures RowInv(c, t, n.rows[id], n.past[id]) {
      assert RowInv(c, s.now, s.rows[id], s.past[id]);
    }
  }

  lemma CronUnlocks(c: Config, s: State, t: Time, p: PodId, name: Name)
    requires Inv(c, s) && t > s.now && p in s.pods && name in c.scheduled && CronEnabled(s, t, p, name, Unlock)
    ensures var n := AfterCron(s, t, p, name, Unlock).(now := t);
      RowsInv(c, n) && n.past == s.past && forall id :: Plain(c, n, id) ==> id in s.rows && n.rows[id] == s.rows[id]
  {
    var n := AfterCron(s, t, p, name, Unlock).(now := t);
    forall id | id in n.rows ensures RowInv(c, t, n.rows[id], n.past[id]) {
      assert RowInv(c, s.now, s.rows[id], s.past[id]);
    }
  }

  lemma CronKeepsInv(c: Config, s: State, te: Timed)
    requires Fires(c, s, te) && te.event.Cron?
    ensures Inv(c, Step(c, s, te))
  {
    var p, name, step := te.event.pod, te.event.name, te.event.step;
    CronStepped(c, s, te.at, p, name, step);
    if step.Lock? {
      CronLocks(c, s, te.at, p, name, step.id, step.ttl);
    } else {
      CronWrites(c, s, te.at, p, name, step);
    }
    OthersKeepInv(c, s, AfterCron(s, te.at, p, name, step).(now := te.at));
  }

  /** Nothing happened to the tickers, the runs and the rows that the invariant speaks of. */
  lemma OthersKeepInv(c: Config, s: State, n: State)
    requires Inv(c, s) && CronKeeps(c, s, n)
    ensures Inv(c, n)
  {
    forall p | p in n.pods ensures TickerInv(c, n, p) {
      TickerFrame(c, s, n, p);
    }
    forall p, id | InFlight(n, p, id) ensures InFlight(s, p, id) && RunInv(c, n, p, id) {
      RunFrame(c, s, n, p, id);
    }
  }

  lemma LaterKeepsInv(c: Config, s: State, t: Time)
    requires Inv(c, s) && s.now <= t
    ensures Inv(c, s.(now := t))
  {
    var n := s.(now := t);
    forall p | p in n.pods ensures TickerInv(c, n, p) {
      TickerFrame(c, s, n, p);
    }
    forall p, id | InFlight(n, p, id) ensures InFlight(s, p, id) && RunInv(c, n, p, id) {
      RunFrame(c, s, n, p, id);
    }
  }

  // ---------- what one event can do to a row ----------

  /** The scheduled runner locks the handler's own row; it records and unlocks every row of that name which its pod owns. */
  predicate CronMove(was: Row, t: Time, p: PodId, step: CronStep, id: TaskId, row: Row) {
    match step
    case Lock(locked, ttl) => locked == id && was.biz == Some(SCHEDULED_BIZ_NAME) && LockFree(was, t) && row == Locked(was, p, t, ttl)
    case Report(outcome) => was.owner == Some(p) && row == Recorded(was, Reported(outcome))
    case Unlock => was.owner == Some(p) && row == Unlocked(was)
  }

  /**
   A row changes only by being locked, recorded or released by a run that passes its guard, or
   resubmitted - or, if its handler has a schedule, by the scheduled runner.
   */
  ghost predicate RowMove(c: Config, s: State, te: Timed, id: TaskId, row: Row)
    requires id in s.rows
  {
    var was, e := s.rows[id], te.event;
    || row == was
    || (e.Acquire? && e.pod in s.pods && s.pods[e.pod].ticker.queue != [] && s.pods[e.pod].ticker.queue[0].id == id &&
        LockFree(was, te.at) && row == Locked(was, e.pod, te.at, s.pods[e.pod].ticker.queue[0].timeout + LOCK_TTL_BUFFER))
    || (e.Record? && e.id == id && InFlight(s, e.pod, id) && s.pods[e.pod].inFlight[id].phase.Finished? &&
        OwnedBy(s.rows, id, e.pod) && row == Recorded(was, Reported(s.pods[e.pod].inFlight[id].phase.outcome)))
    || (e.Release? && e.id == id && InFlight(s, e.pod, id) && s.pods[e.pod].inFlight[id].phase.Unlocking? &&
        OwnedBy(s.rows, id, e.pod) && row == Unlocked(was))
    || (e.SubmitTriggered? && e.id == id && was.name == e.name && e.name in c.cooldowns &&
        row == Resubmitted(was, e.timeout, e.maxRuns, te.at, c.cooldowns[e.name]))
    || (e.Cron? && was.name == e.name && e.name in c.scheduled && CronMove(was, te.at, e.pod, e.step, id, row))
  }

  lemma {:induction false} RowStep(c: Config, s: State, te: Timed, id: TaskId)
    requires Inv(c, s) && id in s.rows
    ensures var n := Step(c, s, te);
      id in n.past && s.past[id].lastSubmit <= n.past[id].lastSubmit &&
      (id in n.rows ==> RowMove(c, s, te, id, n.rows[id]) && n.rows[id].kind == s.rows[id].kind && n.rows[id].name == s.rows[id].name)
  {
    PastStep(c, s, te, id);
    RowMoves(c, s, te, id);
  }

  lemma PastStep(c: Config, s: State, te: Timed, id: TaskId)
    requires Inv(c, s) && id in s.rows
    ensures var n := Step(c, s, te); id in n.past && s.past[id].lastSubmit <= n.past[id].lastSubmit
  {
    if !Writes(te.event) {
      TableUntouched(c, s, te);
    } else if id in s.rows {
      assert RowInv(c, s.now, s.rows[id], s.past[id]);
    }
  }

  lemma RowMoves(c: Config, s: State, te: Timed, id: TaskId)
    requires Inv(c, s) && id in s.rows
    ensures id in Step(c, s, te).rows ==> RowMove(c, s, te, id, Step(c, s, te).rows[id])
  {
    if !Writes(te.event) {
      TableUntouched(c, s, te);
    }
  }

  predicate Writes(e: Event) {
    e.SubmitOneshot? || e.SubmitTriggered? || e.Acquire? || e.Record? || e.Release? || e.Delete? || e.Cron? || e.Cleanup?
  }

  lemma TableUntouched(c: Config, s: State, te: Timed)
    requires !Writes(te.event)
    ensures Step(c, s, te).rows == s.rows && Step(c, s, te).past == s.past
  {
  }

  /** Only a oneshot row can disappear, by the deletion after a run or by cleanup. */
  lemma RowGone(c: Config, s: State, te: Timed, id: TaskId)
    requires Inv(c, s) && id in s.rows && id !in Step(c, s, te).rows
    ensures s.rows[id].kind == Oneshot
    ensures (te.event.Delete? && te.event.id == id) || te.event.Cleanup?
  {
    if te.event.Delete? {
      assert RunInv(c, s, te.event.pod, te.event.id);
    }
  }

  predicate MovesTicker(e: Event) {
    e.List? || e.Inspect? || e.CountRunning? || e.Acquire? || e.Abandon? || e.Crash?
  }

  predicate MovesRun(e: Event) {
    e.Begin? || e.Finish? || e.Record? || e.Release? || e.Delete? || e.Abort?
  }

  /** An event of one background task. */
  predicate EventOfRun(e: Event, p: PodId, id: TaskId) {
    (MovesRun(e) || e.Retire?) && e.pod == p && e.id == id
  }

  /** A background task never goes back. */
  predicate Later(phase: Phase, next: Phase) {
    (Active(next) ==> Active(phase)) && (Unrecorded(next) ==> Unrecorded(phase)) && (Unreleased(next) ==> Unreleased(phase))
  }

  /** Every run of the second pod was in flight on the first, and has only moved on. */
  ghost predicate NoNewRun(pod: Pod, next: Pod) {
    forall id :: id in next.inFlight ==>
      id in pod.inFlight && next.inFlight[id].(phase := Done) == pod.inFlight[id].(phase := Done) &&
      Later(pod.inFlight[id].phase, next.inFlight[id].phase)
  }

  lemma RunMove(c: Config, s: State, te: Timed)
    requires MovesRun(te.event) && Step(c, s, te) != s
    ensures exists phase ::
      (Later(s.pods[te.event.pod].inFlight[te.event.id].phase, phase) &&
       Step(c, s, te).pods == SetPhase(s, te.event.pod, te.event.id, phase).pods)
  {
    var p, id := te.event.pod, te.event.id;
    assert Step(c, s, te).pods == SetPhase(s, p, id, Step(c, s, te).pods[p].inFlight[id].phase).pods;
  }

  /** Tickers move only by ticker events. */
  lemma TickersKept(c: Config, s: State, te: Timed, p: PodId)
    requires p in s.pods && !MovesTicker(te.event)
    ensures Step(c, s, te).pods.Keys == s.pods.Keys && Step(c, s, te).pods[p].ticker == s.pods[p].ticker
  {
    if MovesRun(te.event) && Step(c, s, te) != s {
      RunMove(c, s, te);
    }
  }

  lemma SamePods(c: Config, s: State, te: Timed)
    ensures Step(c, s, te).pods.Keys == s.pods.Keys
  {
    if MovesRun(te.event) && Step(c, s, te) != s {
      RunMove(c, s, te);
    } else if te.event.Cron? && te.at > s.now && Enabled(c, s, te.at, te.event) {
      CronStepped(c, s, te.at, te.event.pod, te.event.name, te.event.step);
      CronPods(s, te.at, te.event.pod, te.event.name, te.event.step);
    } else if !MovesTicker(te.event) && !MovesRun(te.event) && !te.event.Cron? {
      QuietPods(c, s, te);
    }
  }

  lemma QuietPods(c: Config, s: State, te: Timed)
    requires !MovesTicker(te.event) && !MovesRun(te.event) && !te.event.Cron?
    ensures Step(c, s, te).pods.Keys == s.pods.Keys
  {
  }

  /** A pod gains a run only by locking a row. */
  lemma PodStep(c: Config, s: State, te: Timed, p: PodId)
    requires p in s.pods && !(te.event.Acquire? && te.event.pod == p && Step(c, s, te) != s)
    ensures p in Step(c, s, te).pods && NoNewRun(s.pods[p], Step(c, s, te).pods[p])
  {
    if MovesRun(te.event) && Step(c, s, te) != s {
      RunMove(c, s, te);
      var phase :| Later(s.pods[te.event.pod].inFlight[te.event.id].phase, phase) &&
                   Step(c, s, te).pods == SetPhase(s, te.event.pod, te.event.id, phase).pods;
      PhaseMoves(s, te.event.pod, te.event.id, phase, p);
    } else if !MovesRun(te.event) {
      OnlyTickersMove(c, s, te, p);
    }
  }

  lemma PhaseMoves(s: State, q: PodId, id: TaskId, phase: Phase, p: PodId)
    requires InFlight(s, q, id) && p in s.pods && Later(s.pods[q].inFlight[id].phase, phase)
    ensures NoNewRun(s.pods[p], SetPhase(s, q, id, phase).pods[p])
  {
  }

  lemma OnlyTickersMove(c: Config, s: State, te: Timed, p: PodId)
    requires p in s.pods && !MovesRun(te.event) && !(te.event.Acquire? && te.event.pod == p && Step(c, s, te) != s)
    ensures p in Step(c, s, te).pods && Shrinks(s.pods[p], Step(c, s, te).pods[p])
  {
    if te.event.List? || te.event.Inspect? || te.event.CountRunning? || te.event.Abandon? {
      InFlightKept(c, s, te, p);
    }
  }

  /** Listing, checking and giving up leave the in-flight maps alone. */
  lemma InFlightKept(c: Config, s: State, te: Timed, p: PodId)
    requires te.event.List? || te.event.Inspect? || te.event.CountRunning? || te.event.Abandon?
    requires p in s.pods
    ensures p in Step(c, s, te).pods && Step(c, s, te).pods[p].inFlight == s.pods[p].inFlight
  {
  }

  // ---------- the unique key ----------

  lemma StepKeepsUniqueKeys(c: Config, s: State, te: Timed)
    requires Inv(c, s) && UniqueKeys(s.rows)
    ensures UniqueKeys(Step(c, s, te).rows)
  {
    var n := Step(c, s, te);
    if !Writes(te.event) {
      TableUntouched(c, s, te);
    } else {
      forall id | id in n.rows && id in s.rows ensures n.rows[id].name == s.rows[id].name && n.rows[id].biz == s.rows[id].biz {
        RowStep(c, s, te, id);
      }
      forall id | id in n.rows && id !in s.rows ensures !Taken(s.rows, n.rows[id].name, n.rows[id].biz) {
        NewKeyIsFree(c, s, te, id);
      }
      OneNewRow(c, s, te);
    }
  }

  /** The only row that an event can add. */
  function NewId(e: Event): Option<TaskId> {
    match e
    case SubmitOneshot(id, _, _, _, _) => Some(id)
    case SubmitTriggered(id, _, _, _, _) => Some(id)
    case Cron(_, _, Lock(id, _)) => Some(id)
    case _ => None
  }

  lemma NewKeyIsFree(c: Config, s: State, te: Timed, id: TaskId)
    requires id in Step(c, s, te).rows && id !in s.rows
    ensures NewId(te.event) == Some(id)
    ensures !Taken(s.rows, Step(c, s, te).rows[id].name, Step(c, s, te).rows[id].biz)
  {
    if !Writes(te.event) {
      TableUntouched(c, s, te);
    }
  }

  lemma OneNewRow(c: Config, s: State, te: Timed)
    ensures forall a, b :: a in Step(c, s, te).rows && b in Step(c, s, te).rows && a !in s.rows && b !in s.rows ==> a == b
  {
    forall a | a in Step(c, s, te).rows && a !in s.rows
      ensures NewId(te.event) == Some(a)
    {
      NewKeyIsFree(c, s, te, a);
    }
  }

  /** No two rows ever share a (task_name, biz_name). */
  lemma {:induction false} UniqueKeysAlways(c: Config, start: Time, run: seq<Timed>)
    ensures UniqueKeys(Exec(c, Start(c, start), run).rows)
    decreases |run|
  {
    if run != [] {
      UniqueKeysAlways(c, start, run[..|run| - 1]);
      InvAlways(c, start, run[..|run| - 1]);
      StepKeepsUniqueKeys(c, Exec(c, Start(c, start), run[..|run| - 1]), run[|run| - 1]);
    }
  }

  // ---------- acquisitions ----------

  function Acquisitions(s: State, id: TaskId): nat {
    if id in s.past then s.past[id].acquisitions else 0
  }

  lemma AcquisitionsStep(c: Config, s: State, te: Timed, id: TaskId)
    ensures Acquisitions(s, id) <= Acquisitions(Step(c, s, te), id)
    ensures id in s.past ==> id in Step(c, s, te).past
  {
    if !Writes(te.event) {
      TableUntouched(c, s, te);
    }
  }

  /** Only a successful attempt at this row's lock counts as an acquisition of it. */
  lemma OtherAcquisitions(c: Config, s: State, te: Timed, id: TaskId)
    requires id in s.past && !(te.event.Acquire? && Step(c, s, te) != s && s.pods[te.event.pod].ticker.queue[0].id == id)
    ensures id in Step(c, s, te).past && Step(c, s, te).past[id].acquisitions == s.past[id].acquisitions
  {
    if !Writes(te.event) {
      TableUntouched(c, s, te);
    }
  }

  /** What a row id stood for, it stands for as long as there is history. */
  lemma PastNamesStay(c: Config, s: State, te: Timed, id: TaskId)
    requires id in s.past
    ensures var n := Step(c, s, te); id in n.past && n.past[id].kind == s.past[id].kind && n.past[id].name == s.past[id].name
  {
    if !Writes(te.event) {
      TableUntouched(c, s, te);
    }
  }

  /** The id has never stood for a row of a scheduled handler. */
  predicate PlainId(c: Config, s: State, id: TaskId) {
    id in s.past ==> s.past[id].name !in c.scheduled
  }
}
