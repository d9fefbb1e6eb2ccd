/**
 Rows that are marked as running although nobody holds them. Nothing lists such a row. The
 ways into this state are the release after a run that was cancelled or could not record and,
 if the handler has a schedule, the release of a scheduled run; without an entry that some pod
 still has queued there is no way out, unless the row has the key of a schedule.
 */
module StrayRows {
  import opened Wrappers
  import opened TaskRows
  import opened TaskProtocol
  import opened TaskInvariants
  import opened OneshotTasks

  /** Marked as running, and held by nobody. */
  predicate Stray(row: Row) {
    row.status == Running && row.owner.None?
  }

  /** The row still owes an execution: never run although it may, or submitted since its last run. */
  predicate Owed(row: Row) {
    match row.kind
    case Scheduled => false
    case Oneshot => row.runCount == 0 && (row.maxRuns.None? || row.maxRuns.value >= 1)
    case Triggered => Dirty(row)
  }

  /** The instant from which nothing but a live lock could hold the row back. */
  predicate Due(row: Row, t: Time) {
    && (row.expireAt.Some? ==> row.expireAt.value <= t)
    && (row.kind == Triggered ==> row.requestAt.Some? && row.requestAt.value <= t)
  }

  /**
   In every run: a row that owes an execution and is due can be locked, and is listed exactly
   if it is not stray.
   */
  lemma {:induction false} RecoverableExactly(c: Config, start: Time, run: seq<Timed>, id: TaskId, t: Time)
    requires var s := Exec(c, Start(c, start), run); id in s.rows && Owed(s.rows[id]) && Due(s.rows[id], t)
    ensures var row := Exec(c, Start(c, start), run).rows[id];
      LockFree(row, t) && (Listable(row, row.kind, t) <==> !Stray(row))
  {
    InvAlways(c, start, run);
    var s := Exec(c, Start(c, start), run);
    assert RowInv(c, s.now, s.rows[id], s.past[id]);
  }

  // ---------- how a row becomes stray ----------

  /** The release of the run that holds the row, or of a scheduled run of its handler on the same pod. */
  predicate Unlocks(c: Config, s: State, te: Timed, id: TaskId) {
    te.at > s.now && Enabled(c, s, te.at, te.event) && id in s.rows &&
    ((te.event.Release? && te.event.id == id && !te.event.fails) ||
     (te.event.Cron? && te.event.step.Unlock? && te.event.name == s.rows[id].name)) &&
    OwnedBy(s.rows, id, te.event.pod)
  }

  /** A row becomes stray exactly when it is released while it is still marked as running. */
  lemma StrayArises(c: Config, s: State, te: Timed, id: TaskId)
    requires Inv(c, s) && id in s.rows && !Stray(s.rows[id]) && id in Step(c, s, te).rows
    ensures Stray(Step(c, s, te).rows[id]) <==> Unlocks(c, s, te, id) && s.rows[id].status == Running
  {
    RowStep(c, s, te, id);
  }

  /** A running row is locked, and a run that is about to release it has left a result. */
  ghost predicate NoStray(c: Config, s: State, id: TaskId) {
    Plain(c, s, id) ==>
      && !Stray(s.rows[id])
      && forall p :: InFlight(s, p, id) && s.pods[p].inFlight[id].phase.Unlocking? && OwnedBy(s.rows, id, p) ==> s.rows[id].status != Running
  }

  predicate NeverAborted(run: seq<Timed>, id: TaskId) {
    forall k :: 0 <= k < |run| ==> !(run[k].event.Abort? && run[k].event.id == id)
  }

  lemma StepKeepsNoStray(c: Config, s: State, te: Timed, id: TaskId)
    requires Inv(c, s) && NoStray(c, s, id) && !(te.event.Abort? && te.event.id == id)
    ensures NoStray(c, Step(c, s, te), id)
  {
    var n := Step(c, s, te);
    if Plain(c, n, id) {
      if id !in s.rows {
        NewRowIsPending(c, s, te, id);
      } else {
        RowStep(c, s, te, id);
        StrayArises(c, s, te, id);
        forall p | InFlight(n, p, id) && n.pods[p].inFlight[id].phase.Unlocking? && OwnedBy(n.rows, id, p)
          ensures n.rows[id].status != Running
        {
          ResultBeforeRelease(c, s, te, p, id);
        }
      }
    }
  }

  lemma NewRowIsPending(c: Config, s: State, te: Timed, id: TaskId)
    requires id !in s.rows && Plain(c, Step(c, s, te), id)
    ensures Step(c, s, te).rows[id].status == Pending
  {
    NewKeyIsFree(c, s, te, id);
  }

  lemma ResultBeforeRelease(c: Config, s: State, te: Timed, p: PodId, id: TaskId)
    requires Inv(c, s) && NoStray(c, s, id) && Plain(c, s, id) && !(te.event.Abort? && te.event.id == id)
    requires var n := Step(c, s, te); InFlight(n, p, id) && n.pods[p].inFlight[id].phase.Unlocking? && OwnedBy(n.rows, id, p)
    ensures Step(c, s, te).rows[id].status != Running
  {
    var n := Step(c, s, te);
    if te.event.Record? && te.event.pod == p && te.event.id == id && n != s {
      RecordLeavesAResult(c, s, te);
    } else {
      StepKeepsInv(c, s, te);
      UnlockingBefore(c, s, te, p, id);
      OwnedBefore(c, s, te, p, id);
    }
  }

  lemma RecordLeavesAResult(c: Config, s: State, te: Timed)
    requires Inv(c, s) && te.event.Record? && Step(c, s, te) != s && OwnedBy(Step(c, s, te).rows, te.event.id, te.event.pod)
    ensures Step(c, s, te).rows[te.event.id].status != Running
  {
    RecordStep(c, s, te.at, te.event.pod, te.event.id, te.event.lost);
  }

  /** A run of p on a row that p still owns: the row was p's before, and nobody marked it running since. */
  lemma OwnedBefore(c: Config, s: State, te: Timed, p: PodId, id: TaskId)
    requires Inv(c, s) && Plain(c, s, id) && InFlight(s, p, id) && s.pods[p].inFlight[id].phase.Unlocking?
    requires OwnedBy(Step(c, s, te).rows, id, p)
    ensures OwnedBy(s.rows, id, p) && (s.rows[id].status != Running ==> Step(c, s, te).rows[id].status != Running)
  {
    RowStep(c, s, te, id);
    if te.event.Acquire? && te.event.pod == p && Busy(s, p, s.pods[p].ticker.stage) {
      assert TickerInv(c, s, p);
    }
  }

  lemma UnlockingBefore(c: Config, s: State, te: Timed, p: PodId, id: TaskId)
    requires !(te.event.Abort? && te.event.id == id) && !(te.event.Record? && te.event.pod == p && te.event.id == id && Step(c, s, te) != s)
    requires InFlight(Step(c, s, te), p, id) && Step(c, s, te).pods[p].inFlight[id].phase.Unlocking?
    ensures InFlight(s, p, id) && s.pods[p].inFlight[id] == Step(c, s, te).pods[p].inFlight[id]
  {
    if MovesRun(te.event) && Step(c, s, te) != s {
      UnlockingMove(c, s, te);
    } else if !MovesRun(te.event) {
      UnlockingKept(c, s, te, p, id);
    }
  }

  /** Apart from a record and a cancellation, no event of a run makes it about to release. */
  lemma UnlockingMove(c: Config, s: State, te: Timed)
    requires MovesRun(te.event) && Step(c, s, te) != s
    ensures InFlight(s, te.event.pod, te.event.id)
    ensures exists phase: Phase ::
      ((phase.Unlocking? ==> te.event.Record? || te.event.Abort?) && Step(c, s, te).pods == SetPhase(s, te.event.pod, te.event.id, phase).pods)
  {
    var p, id := te.event.pod, te.event.id;
    var phase := Step(c, s, te).pods[p].inFlight[id].phase;
    assert (phase.Unlocking? ==> te.event.Record? || te.event.Abort?) && Step(c, s, te).pods == SetPhase(s, p, id, phase).pods;
  }

  lemma UnlockingKept(c: Config, s: State, te: Timed, p: PodId, id: TaskId)
    requires !MovesRun(te.event)
    requires InFlight(Step(c, s, te), p, id) && Step(c, s, te).pods[p].inFlight[id].phase.Unlocking?
    ensures InFlight(s, p, id) && s.pods[p].inFlight[id] == Step(c, s, te).pods[p].inFlight[id]
  {
    SamePods(c, s, te);
    if !(te.event.Acquire? && te.event.pod == p && Step(c, s, te) != s) {
      OnlyTickersMove(c, s, te, p);
    }
  }

  lemma {:induction false} NoStrayAlways(c: Config, start: Time, run: seq<Timed>, id: TaskId)
    requires NeverAborted(run, id)
    ensures NoStray(c, Exec(c, Start(c, start), run), id)
    decreases |run|
  {
    if run != [] {
      NoStrayAlways(c, start, run[..|run| - 1], id);
      InvAlways(c, start, run[..|run| - 1]);
      StepKeepsNoStray(c, Exec(c, Start(c, start), run[..|run| - 1]), run[|run| - 1], id);
    }
  }

  /**
   As long as no run of this row was broken off - whatever crashed, and whatever happened to
   other rows - the row is locked whenever it is running, and an owed row is listed and can be
   locked as soon as it is due.
   */
  lemma {:induction false} CrashedRowsRecover(c: Config, start: Time, run: seq<Timed>, id: TaskId, t: Time)
    requires NeverAborted(run, id) && Plain(c, Exec(c, Start(c, start), run), id)
    ensures var row := Exec(c, Start(c, start), run).rows[id];
      (row.status == Running ==> row.owner.Some? && row.expireAt.Some?) &&
      (Owed(row) && Due(row, t) ==> Listable(row, row.kind, t) && LockFree(row, t))
  {
    NoStrayAlways(c, start, run, id);
    InvAlways(c, start, run);
    var s := Exec(c, Start(c, start), run);
    assert RowInv(c, s.now, s.rows[id], s.past[id]);
    if Owed(s.rows[id]) && Due(s.rows[id], t) {
      RecoverableExactly(c, start, run, id, t);
    }
  }

  // ---------- a cancelled run strands its row ----------

  /** Stray, on nobody's list any more, and no business of a schedule. */
  predicate Stranded(c: Config, s: State, id: TaskId) {
    id in s.rows && Stray(s.rows[id]) && Waiting(s, id) == {} && !KeyOfSchedule(c, s.rows[id])
  }

  /** A run executes or has executed the row and could still record, or is about to release it without having recorded. */
  ghost predicate HeldRunning(c: Config, s: State, p: PodId, id: TaskId, cancelled: bool) {
    Inv(c, s) && InFlight(s, p, id) && OwnedBy(s.rows, id, p) && s.rows[id].status == Running &&
    if cancelled then s.pods[p].inFlight[id].phase == Unlocking(false) else Breakable(s.pods[p].inFlight[id].phase)
  }

  lemma CancelStep(c: Config, s: State, p: PodId, id: TaskId, t: Time)
    requires HeldRunning(c, s, p, id, false) && t > s.now
    ensures var n := Step(c, s, Timed(t, Abort(p, id)));
      n.now == t && n.rows == s.rows && HeldRunning(c, n, p, id, true) && Waiting(n, id) <= Waiting(s, id)
  {
    WaitingKept(c, s, Timed(t, Abort(p, id)), id);
    StepKeepsInv(c, s, Timed(t, Abort(p, id)));
  }

  lemma ReleaseStrays(c: Config, s: State, p: PodId, id: TaskId, t: Time)
    requires HeldRunning(c, s, p, id, true) && t > s.now
    ensures var n := Step(c, s, Timed(t, Release(p, id, false)));
      id in n.rows && n.rows[id] == Unlocked(s.rows[id]) && Stray(n.rows[id]) && Waiting(n, id) <= Waiting(s, id)
  {
    WaitingKept(c, s, Timed(t, Release(p, id, false)), id);
    ReleaseStep(c, s, t, p, id, false);
  }

  /** The run that holds the row is cancelled, or fails to record, and then releases: the row is stray, and stranded if nobody has it queued. */
  lemma {:induction false} CancellationStrands(c: Config, start: Time, run: seq<Timed>, p: PodId, id: TaskId, t: Time, u: Time)
    requires var s := Exec(c, Start(c, start), run);
      s.now < t < u && InFlight(s, p, id) && OwnedBy(s.rows, id, p) && Breakable(s.pods[p].inFlight[id].phase) &&
      (Plain(c, s, id) || s.rows[id].status == Running)
    ensures var n := Exec(c, Start(c, start), run + [Timed(t, Abort(p, id))] + [Timed(u, Release(p, id, false))]);
      id in n.rows && Stray(n.rows[id]) &&
      (Waiting(Exec(c, Start(c, start), run), id) == {} && !KeyOfSchedule(c, n.rows[id]) ==> Stranded(c, n, id))
  {
    InvAlways(c, start, run);
    var s := Exec(c, Start(c, start), run);
    assert RunInv(c, s, p, id);
    ExecSnoc(c, Start(c, start), run, Timed(t, Abort(p, id)));
    CancelStep(c, s, p, id, t);
    ExecSnoc(c, Start(c, start), run + [Timed(t, Abort(p, id))], Timed(u, Release(p, id, false)));
    ReleaseStrays(c, Exec(c, Start(c, start), run + [Timed(t, Abort(p, id))]), p, id, u);
  }

  lemma StrandedStep(c: Config, s: State, te: Timed, id: TaskId)
    requires Inv(c, s) && Stranded(c, s, id)
    ensures var n := Step(c, s, te);
      (id !in n.rows && s.rows[id].kind == Oneshot) || (Stranded(c, n, id) && n.past[id].acquisitions == s.past[id].acquisitions)
  {
    var n := Step(c, s, te);
    StepKeepsInv(c, s, te);
    if id in n.rows {
      RowStep(c, s, te, id);
      WaitingStep(c, s, te, id);
      if te.event.Acquire? && n != s {
        WaitingAfterLock(c, s, te);
      }
      OtherAcquisitions(c, s, te, id);
    } else {
      RowGone(c, s, te, id);
    }
  }

  /**
   No later event of anybody - no tick, no submission - brings a stranded triggered row back:
   it is never listed and never acquired again, however often it is submitted. A stranded
   oneshot row can at most be deleted.
   */
  lemma {:induction false} StrandedForever(c: Config, s: State, after: seq<Timed>, id: TaskId)
    requires Inv(c, s) && Stranded(c, s, id)
    ensures var n := Exec(c, s, after);
      Inv(c, n) && id in n.past &&
      (s.rows[id].kind == Triggered ==> id in n.rows) &&
      (id in n.rows ==> Stranded(c, n, id) && n.rows[id].kind == s.rows[id].kind && n.past[id].acquisitions == s.past[id].acquisitions &&
                        forall kind, t :: !Listable(n.rows[id], kind, t))
    decreases |after|
  {
    if after != [] {
      var last := |after| - 1;
      StrandedForever(c, s, after[..last], id);
      var m := Exec(c, s, after[..last]);
      StepKeepsInv(c, m, after[last]);
      if id in m.rows {
        StrandedStep(c, m, after[last], id);
        RowStep(c, m, after[last], id);
      } else {
        GoneStaysGone(c, m, after[last], id);
      }
    }
  }

  lemma GoneStaysGone(c: Config, s: State, te: Timed, id: TaskId)
    requires Inv(c, s) && id in s.past && id !in s.rows
    ensures id !in Step(c, s, te).rows && id in Step(c, s, te).past
  {
    if !Writes(te.event) {
      TableUntouched(c, s, te);
    }
  }
}
