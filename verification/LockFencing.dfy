/**
 What the owner column is worth. The lock has no token of its own; these results show that
 `WHERE id = ? AND owner = ?` nevertheless admits a run that has not released exactly while it
 is the latest acquisition of the row, so a run that lost its lock changes nothing any more -
 with one exception, the deletion that follows a run, which carries no owner guard. The two
 results that read the owner column are about handlers without a schedule.
 */
module LockFencing {
  import opened Wrappers
  import opened TaskRows
  import opened TaskProtocol
  import opened TaskInvariants

  /** The owner guard is as strong as a fencing token. */
  lemma {:induction false} OwnerGuardIsAFencingToken(c: Config, start: Time, run: seq<Timed>, p: PodId, id: TaskId)
    requires var s := Exec(c, Start(c, start), run); InFlight(s, p, id) && Plain(c, s, id)
    ensures var s := Exec(c, Start(c, start), run); var task := s.pods[p].inFlight[id];
      id in s.past && (Unreleased(task.phase) && OwnedBy(s.rows, id, p) <==> Current(s, id, task))
  {
    InvAlways(c, start, run);
    assert RunInv(c, Exec(c, Start(c, start), run), p, id);
  }

  /** The row was acquired again after this run acquired it. */
  predicate TakenOver(s: State, p: PodId, id: TaskId) {
    InFlight(s, p, id) && id in s.past && s.past[id].acquisitions > s.pods[p].inFlight[id].epoch
  }

  predicate SameRun(s: State, n: State, p: PodId, id: TaskId) {
    InFlight(s, p, id) && InFlight(n, p, id) && s.pods[p].inFlight[id].epoch == n.pods[p].inFlight[id].epoch
  }

  /** An acquisition by another pod takes the row over from every run of it; a pod never takes it from itself. */
  lemma AcquisitionTakesOver(c: Config, start: Time, run: seq<Timed>, te: Timed, p: PodId, id: TaskId)
    requires var s := Exec(c, Start(c, start), run);
      InFlight(s, p, id) && te.at > s.now && Enabled(c, s, te.at, te.event) && te.event.Acquire? &&
      s.pods[te.event.pod].ticker.queue[0].id == id && id in s.rows && LockFree(s.rows[id], te.at)
    ensures var s := Exec(c, Start(c, start), run);
      te.event.pod != p && TakenOver(Step(c, s, te), p, id) && SameRun(s, Step(c, s, te), p, id)
  {
    InvAlways(c, start, run);
    var s := Exec(c, Start(c, start), run);
    assert TickerInv(c, s, te.event.pod) && RunInv(c, s, p, id);
  }

  lemma {:induction false} AcquisitionsGrow(c: Config, s: State, after: seq<Timed>, id: TaskId)
    requires Inv(c, s) && id in s.past
    ensures var n := Exec(c, s, after); Inv(c, n) && id in n.past && s.past[id].acquisitions <= n.past[id].acquisitions
    decreases |after|
  {
    if after != [] {
      AcquisitionsGrow(c, s, after[..|after| - 1], id);
      AcquisitionsStep(c, Exec(c, s, after[..|after| - 1]), after[|after| - 1], id);
      StepKeepsInv(c, Exec(c, s, after[..|after| - 1]), after[|after| - 1]);
    }
  }

  /**
   Once taken over, for ever inert: whatever happens in between, no later event of that run
   changes the table - no result field, no lock field - except the deletion of a oneshot row
   whose retention for that outcome is zero.
   */
  lemma StaleRunsAreInert(c: Config, start: Time, before: seq<Timed>, after: seq<Timed>, te: Timed, p: PodId, id: TaskId)
    requires TakenOver(Exec(c, Start(c, start), before), p, id)
    requires SameRun(Exec(c, Start(c, start), before), Exec(c, Start(c, start), before + after), p, id)
    requires EventOfRun(te.event, p, id)
    requires Exec(c, Start(c, start), before + after).pods[p].inFlight[id].name !in c.scheduled
    ensures var n := Exec(c, Start(c, start), before + after);
      te.event.Delete? || (Step(c, n, te).rows == n.rows && Step(c, n, te).past == n.past)
    ensures var n := Exec(c, Start(c, start), before + after);
      te.event.Delete? && te.at > n.now && Enabled(c, n, te.at, te.event) ==>
        var stale := n.pods[p].inFlight[id];
        (Step(c, n, te).rows == n.rows <==>
          !(id in n.rows && !te.event.fails && Deletes(c, stale)))
  {
    var s, n := Exec(c, Start(c, start), before), Exec(c, Start(c, start), before + after);
    InvAlways(c, start, before);
    ExecConcat(c, Start(c, start), before, after);
    AcquisitionsGrow(c, s, after, id);
    assert RunInv(c, n, p, id) && (id in n.rows ==> RowInv(c, n.now, n.rows[id], n.past[id]));
    InertEvent(c, n, te, p, id);
  }

  lemma InertEvent(c: Config, n: State, te: Timed, p: PodId, id: TaskId)
    requires TakenOver(n, p, id) && RunInv(c, n, p, id) && EventOfRun(te.event, p, id)
    requires id in n.rows ==> Plain(c, n, id)
    ensures te.event.Delete? || (Step(c, n, te).rows == n.rows && Step(c, n, te).past == n.past)
    ensures te.event.Delete? && te.at > n.now && Enabled(c, n, te.at, te.event) ==>
        var stale := n.pods[p].inFlight[id];
        (Step(c, n, te).rows == n.rows <==>
          !(id in n.rows && !te.event.fails && Deletes(c, stale)))
  {
    assert Unreleased(n.pods[p].inFlight[id].phase) ==> !OwnedBy(n.rows, id, p);
  }

  // ---------- the exception ----------

  /** The next event of a run that is past its beginning. */
  function NextEvent(p: PodId, id: TaskId, phase: Phase, ok: bool): Event {
    match phase
    case Executing(_) => Finish(p, id, ok, "", 1)
    case Finished(_) => Record(p, id, false)
    case Unlocking(_) => Release(p, id, false)
    case _ => Delete(p, id, false)
  }

  function NextPhase(phase: Phase, ok: bool): Phase {
    match phase
    case Executing(startedAt) => Finished(Outcome(ok, startedAt, "", 1))
    case Finished(outcome) => Unlocking(outcome.ok)
    case Unlocking(_) => Deleting(ok)
    case _ => Done
  }

  predicate EndsWith(phase: Phase, ok: bool) {
    phase.Executing? || (phase.Finished? && phase.outcome.ok == ok) || ((phase.Unlocking? || phase.Deleting?) && phase.ok == ok)
  }

  /** An overtaken run of a row that another pod owns, about to end with an outcome for which the cluster does not keep rows. */
  ghost predicate OvertakenRun(c: Config, s: State, p: PodId, q: PodId, id: TaskId, ok: bool) {
    && TakenOver(s, p, id) && EndsWith(s.pods[p].inFlight[id].phase, ok)
    && q != p && q in s.pods && OwnedBy(s.rows, id, q)
    && s.pods[p].inFlight[id].kind == Oneshot && DeletesAtOnce(c.retention, ok)
  }

  function NextState(s: State, p: PodId, id: TaskId, ok: bool): State
    requires InFlight(s, p, id)
  {
    var phase := s.pods[p].inFlight[id].phase;
    SetPhase(s, p, id, NextPhase(phase, ok)).(now := s.now + 1, rows := if phase.Deleting? then s.rows - {id} else s.rows)
  }

  lemma OvertakenStep(c: Config, s: State, p: PodId, q: PodId, id: TaskId, ok: bool)
    requires OvertakenRun(c, s, p, q, id, ok)
    ensures Step(c, s, Timed(s.now + 1, NextEvent(p, id, s.pods[p].inFlight[id].phase, ok))) == NextState(s, p, id, ok)
  {
  }

  lemma OvertakenMove(c: Config, s: State, p: PodId, q: PodId, id: TaskId, ok: bool) returns (te: Timed, n: State)
    requires OvertakenRun(c, s, p, q, id, ok)
    ensures n == Exec(c, s, [te]) && EventOfRun(te.event, p, id) && q in n.pods && n.pods[q] == s.pods[q]
    ensures s.pods[p].inFlight[id].phase.Deleting? ==> id !in n.rows
    ensures !s.pods[p].inFlight[id].phase.Deleting? ==>
      OvertakenRun(c, n, p, q, id, ok) && Remaining(n.pods[p].inFlight[id].phase) < Remaining(s.pods[p].inFlight[id].phase)
  {
    te := Timed(s.now + 1, NextEvent(p, id, s.pods[p].inFlight[id].phase, ok));
    n := NextState(s, p, id, ok);
    OvertakenStep(c, s, p, q, id, ok);
    ExecSnoc(c, s, [], te);
    assert [] + [te] == [te];
  }

  function Remaining(phase: Phase): nat {
    match phase
    case Executing(_) => 4
    case Finished(_) => 3
    case Unlocking(_) => 2
    case _ => 1
  }

  /**
   With a retention of zero for its outcome, a run that lost its lock deletes the row under
   its successor, which goes on executing a row that is gone.
   */
  lemma {:induction false} OvertakenRunDeletesTheRow(c: Config, s: State, p: PodId, q: PodId, id: TaskId, ok: bool)
    returns (after: seq<Timed>)
    requires OvertakenRun(c, s, p, q, id, ok)
    ensures forall k :: 0 <= k < |after| ==> EventOfRun(after[k].event, p, id)
    ensures var n := Exec(c, s, after); id !in n.rows && q in n.pods && n.pods[q] == s.pods[q]
    decreases Remaining(s.pods[p].inFlight[id].phase)
  {
    var te, n := OvertakenMove(c, s, p, q, id, ok);
    after := [te];
    if !s.pods[p].inFlight[id].phase.Deleting? {
      var rest := OvertakenRunDeletesTheRow(c, n, p, q, id, ok);
      ExecConcat(c, s, [te], rest);
      after := [te] + rest;
    }
  }
}
