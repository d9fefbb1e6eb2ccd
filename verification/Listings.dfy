/**
 What a listing shows, told by what happened to the rows: exactly what still has to run and can.
 In particular a triggered row that has been served since its last request is not listed before
 the next submission, and a oneshot row that has finished never is.
 */
module Listings {
  import opened Wrappers
  import opened TaskRows
  import opened TaskProtocol
  import opened TaskInvariants
  import opened RowHistory
  import Triggers = TriggeredTasks

  /**
   Nobody holds the row, unless under a lock that has expired; and a oneshot row has not finished
   and has runs left, a triggered row is due and no run that started since the request was the
   last one recorded.
   */
  predicate Outstanding(h: History, limit: Option<int>, t: Time)
    requires h.Known?
  {
    && (h.running ==> h.lock.Some? && h.lock.value.until <= t)
    && match h.kind
       case Scheduled => false
       case Oneshot => (h.running || h.last.None?) && (limit.None? || |h.since| < limit.value)
       case Triggered => h.wanted.Some? && h.wanted.value <= t && (h.last.None? || h.last.value.startedAt < h.wanted.value)
  }

  ghost predicate Lists(c: Config, s: State, te: Timed) {
    te.at > s.now && te.event.List? && Enabled(c, s, te.at, te.event)
  }

  /** In every run, a listing of one type has exactly the outstanding rows of that type. */
  lemma {:induction false} ListedExactly(c: Config, start: Time, run: seq<Timed>, te: Timed, id: TaskId)
    requires Lists(c, Exec(c, Start(c, start), run), te)
    ensures var s, h := Exec(c, Start(c, start), run), HistoryOf(c, start, run, id);
      id in Ids(te.event.entries) <==>
        id in s.rows && h.Known? && h.kind == te.event.kind && Outstanding(h, s.rows[id].maxRuns, te.at)
  {
    var s := Exec(c, Start(c, start), run);
    ToldAlways(c, start, run, id);
    if id in Ids(te.event.entries) {
      var i :| 0 <= i < |te.event.entries| && te.event.entries[i].id == id;
      assert Listable(s.rows[id], te.event.kind, te.at);
    }
  }

  /** An entry has the handler and the timeout of the last submission, or 30 seconds. */
  lemma {:induction false} EntriesTellTheirRows(c: Config, start: Time, run: seq<Timed>, te: Timed, i: nat)
    requires Lists(c, Exec(c, Start(c, start), run), te) && i < |te.event.entries|
    ensures var e := te.event.entries[i]; var h := HistoryOf(c, start, run, e.id);
      h.Known? && (h.asked.Some? && SubmitsRow(h.asked.value, e.id) ==>
        e.name == h.asked.value.name && e.timeout == if h.asked.value.timeout == 0 then 30 else h.asked.value.timeout)
  {
    ToldAlways(c, start, run, te.event.entries[i].id);
  }

  /** Entries come by the age of their rows, and by id among rows of one age. */
  lemma {:induction false} EntriesComeByAge(c: Config, start: Time, run: seq<Timed>, te: Timed, i: nat, j: nat)
    requires Lists(c, Exec(c, Start(c, start), run), te) && i < j < |te.event.entries|
    ensures var a, b := te.event.entries[i].id, te.event.entries[j].id;
      var x, y := HistoryOf(c, start, run, a), HistoryOf(c, start, run, b);
      x.Known? && y.Known? && (x.born < y.born || (x.born == y.born && a < b))
  {
    ToldAlways(c, start, run, te.event.entries[i].id);
    ToldAlways(c, start, run, te.event.entries[j].id);
  }

  // ---------- what is settled stays off the list ----------

  /** For a handler without a schedule, no recorded start is later than run_at. */
  ghost predicate StartsUpTo(c: Config, s: State, id: TaskId) {
    Plain(c, s, id) && id in s.past ==> forall at :: at in s.past[id].starts ==> s.rows[id].runAt.Some? && at <= s.rows[id].runAt.value
  }

  lemma StartsStep(c: Config, start: Time, run: seq<Timed>, te: Timed, id: TaskId)
    requires var s := Exec(c, Start(c, start), run); Inv(c, s) && StartsUpTo(c, s, id) && Inv(c, Step(c, s, te))
    ensures StartsUpTo(c, Step(c, Exec(c, Start(c, start), run), te), id)
  {
    var s := Exec(c, Start(c, start), run);
    var n := Step(c, s, te);
    if Plain(c, n, id) && id in s.rows {
      RowStep(c, s, te, id);
      Triggers.RunAtNeverDecreases(c, start, run, te, id);
      forall at | at in n.past[id].starts ensures n.rows[id].runAt.Some? && at <= n.rows[id].runAt.value {
        if at !in s.past[id].starts {
          Triggers.NewStart(c, s, te, id, at);
          RunAtIsNewStart(c, s, te, id);
        }
      }
    } else if Plain(c, n, id) {
      NewKeyIsFree(c, s, te, id);
    }
  }

  lemma RunAtIsNewStart(c: Config, s: State, te: Timed, id: TaskId)
    requires te.at > s.now && te.event.Record? && te.event.id == id && Enabled(c, s, te.at, te.event) && OwnedBy(s.rows, id, te.event.pod)
    ensures var n := Step(c, s, te); id in n.rows && n.rows[id].runAt == Some(s.pods[te.event.pod].inFlight[id].phase.outcome.startedAt)
  {
    RecordStep(c, s, te.at, te.event.pod, id, te.event.lost);
  }

  lemma {:induction false} StartsUpToAlways(c: Config, start: Time, run: seq<Timed>, id: TaskId)
    ensures StartsUpTo(c, Exec(c, Start(c, start), run), id)
    decreases |run|
  {
    if run != [] {
      var shorter := run[..|run| - 1];
      StartsUpToAlways(c, start, shorter, id);
      InvAlways(c, start, shorter);
      InvAlways(c, start, run);
      StartsStep(c, start, shorter, run[|run| - 1], id);
    }
  }

  predicate NoSubmission(after: seq<Timed>, id: TaskId) {
    forall k :: 0 <= k < |after| ==> !(after[k].event.SubmitTriggered? && after[k].event.id == id)
  }

  /** Without a submission the request stays, and recorded starts are not forgotten. */
  lemma {:induction false} RequestStays(c: Config, s: State, after: seq<Timed>, id: TaskId)
    requires Inv(c, s) && id in s.rows && s.rows[id].kind == Triggered && NoSubmission(after, id)
    ensures var n := Exec(c, s, after);
      Inv(c, n) && id in n.rows && n.rows[id].kind == Triggered && n.rows[id].name == s.rows[id].name &&
      n.rows[id].requestAt == s.rows[id].requestAt && s.past[id].starts <= n.past[id].starts
    decreases |after|
  {
    if after != [] {
      var last := |after| - 1;
      RequestStays(c, s, after[..last], id);
      var m := Exec(c, s, after[..last]);
      RowStep(c, m, after[last], id);
      Triggers.TriggeredRowStays(c, m, after[last], id);
      StartsStay(c, m, after[last], id);
      StepKeepsInv(c, m, after[last]);
    }
  }

  lemma StartsStay(c: Config, s: State, te: Timed, id: TaskId)
    requires Inv(c, s) && id in s.past
    ensures id in Step(c, s, te).past && s.past[id].starts <= Step(c, s, te).past[id].starts
  {
    if !Writes(te.event) {
      TableUntouched(c, s, te);
    } else if te.event.Cron? {
      StartsStayInCron(c, s, te, id);
    }
  }

  lemma StartsStayInCron(c: Config, s: State, te: Timed, id: TaskId)
    requires id in s.past && te.event.Cron?
    ensures id in Step(c, s, te).past && s.past[id].starts <= Step(c, s, te).past[id].starts
  {
  }

  /**
   For a handler without a schedule: once a run that started at or after the request of a row
   has been recorded, no listing of anybody has the row again until it is submitted anew.
   */
  lemma {:induction false} SettledRowsAreNotListed(c: Config, start: Time, before: seq<Timed>, after: seq<Timed>, te: Timed, id: TaskId, at: Time)
    requires var s := Exec(c, Start(c, start), before);
      Plain(c, s, id) && id in s.past && s.rows[id].kind == Triggered && s.rows[id].requestAt.Some? &&
      at in s.past[id].starts && at >= s.rows[id].requestAt.value && NoSubmission(after, id)
    requires Lists(c, Exec(c, Start(c, start), before + after), te)
    ensures id !in Ids(te.event.entries)
  {
    var s, n := Exec(c, Start(c, start), before), Exec(c, Start(c, start), before + after);
    InvAlways(c, start, before);
    ExecConcat(c, Start(c, start), before, after);
    RequestStays(c, s, after, id);
    StartsUpToAlways(c, start, before + after, id);
    assert Plain(c, n, id) && at in n.past[id].starts;
    ListedExactly(c, start, before + after, te, id);
    ToldAlways(c, start, before + after, id);
  }
}
