/**
 When a oneshot row goes: right after a run whose outcome is not kept at all, or with a cleanup
 once the retention of its outcome has passed. Both are told by what happened to the run and
 to the row.
 */
module RetentionLaws {
  import opened Wrappers
  import opened TaskRows
  import opened TaskProtocol
  import opened TaskInvariants
  import opened RowHistory

  /** The background task of the row has succeeded: its execution did, and it was neither broken off nor cancelled while recording. */
  function Succeeded(c: Config, start: Time, run: seq<Timed>, p: PodId, id: TaskId): bool
    decreases |run|
  {
    if run == [] then false else
      var shorter, te := run[..|run| - 1], run[|run| - 1];
      var s, before := Exec(c, Start(c, start), shorter), Succeeded(c, start, shorter, p, id);
      if !(te.at > s.now && Enabled(c, s, te.at, te.event) && EventOfRun(te.event, p, id)) then before
      else if te.event.Finish? then te.event.ok
      else if te.event.Record? then before && !te.event.lost
      else before && !te.event.Abort?
  }

  predicate ShowsOutcome(s: State, p: PodId, id: TaskId, ok: bool) {
    InFlight(s, p, id) ==>
      match s.pods[p].inFlight[id].phase
      case Finished(outcome) => outcome.ok == ok
      case Unlocking(succeeded) => succeeded == ok
      case Deleting(succeeded) => succeeded == ok
      case _ => true
  }

  lemma OutcomeStep(c: Config, s: State, te: Timed, p: PodId, id: TaskId, ok: bool)
    requires ShowsOutcome(s, p, id, ok) && te.at > s.now && Enabled(c, s, te.at, te.event) && EventOfRun(te.event, p, id)
    ensures var e := te.event;
      ShowsOutcome(Step(c, s, te), p, id, if e.Finish? then e.ok else if e.Record? then ok && !e.lost else ok && !e.Abort?)
  {
  }

  lemma OtherOutcomes(c: Config, s: State, te: Timed, p: PodId, id: TaskId, ok: bool)
    requires ShowsOutcome(s, p, id, ok) && !EventOfRun(te.event, p, id)
    ensures ShowsOutcome(Step(c, s, te), p, id, ok)
  {
    if MovesRun(te.event) && Step(c, s, te) != s {
      RunMove(c, s, te);
    } else if !MovesRun(te.event) && InFlight(Step(c, s, te), p, id) && !(te.event.Acquire? && te.event.pod == p) {
      SamePods(c, s, te);
      OnlyTickersMove(c, s, te, p);
    }
  }

  lemma {:induction false} OutcomesAreShown(c: Config, start: Time, run: seq<Timed>, p: PodId, id: TaskId)
    ensures ShowsOutcome(Exec(c, Start(c, start), run), p, id, Succeeded(c, start, run, p, id))
    decreases |run|
  {
    if run != [] {
      var shorter, te := run[..|run| - 1], run[|run| - 1];
      var s := Exec(c, Start(c, start), shorter);
      OutcomesAreShown(c, start, shorter, p, id);
      if te.at > s.now && Enabled(c, s, te.at, te.event) && EventOfRun(te.event, p, id) {
        OutcomeStep(c, s, te, p, id, Succeeded(c, start, shorter, p, id));
      } else if !EventOfRun(te.event, p, id) {
        OtherOutcomes(c, s, te, p, id, Succeeded(c, start, shorter, p, id));
      }
    }
  }

  /** In every run: after a run, its row goes exactly if it is a oneshot row, the deletion does not fail and the retention for the run's outcome is zero. */
  lemma {:induction false} DeletedExactly(c: Config, start: Time, run: seq<Timed>, t: Time, p: PodId, id: TaskId, fails: bool)
    requires var s := Exec(c, Start(c, start), run); t > s.now && Enabled(c, s, t, Delete(p, id, fails))
    ensures var s := Exec(c, Start(c, start), run); var n := Step(c, s, Timed(t, Delete(p, id, fails)));
      var kept := if Succeeded(c, start, run, p, id) then c.retention.successSeconds else c.retention.failureSeconds;
      n.rows == if !fails && s.pods[p].inFlight[id].kind == Oneshot && kept == 0 then s.rows - {id} else s.rows
  {
    OutcomesAreShown(c, start, run, p, id);
    DeleteStep(c, Exec(c, Start(c, start), run), t, p, id, fails);
  }

  /**
   In every run: a cleanup takes exactly the unlocked oneshot rows that have finished and whose
   last recorded run started longer ago than rows of its outcome are kept, if they are kept for
   a time at all; it changes no other row.
   */
  lemma {:induction false} CleanedExactly(c: Config, start: Time, run: seq<Timed>, t: Time, id: TaskId)
    requires var s := Exec(c, Start(c, start), run); t > s.now && id in s.rows
    ensures var s, h := Exec(c, Start(c, start), run), HistoryOf(c, start, run, id); var n := Step(c, s, Timed(t, Cleanup));
      h.Known? &&
      (id !in n.rows <==>
        h.kind == Oneshot && !h.running && h.lock.None? && h.last.Some? &&
        var kept := if h.last.value.ok then c.retention.successSeconds else c.retention.failureSeconds;
        kept > 0 && h.last.value.startedAt + kept * 1_000_000 <= t) &&
      (id in n.rows ==> n.rows[id] == s.rows[id])
  {
    RowsShowTheirHistory(c, start, run, id);
  }
}
