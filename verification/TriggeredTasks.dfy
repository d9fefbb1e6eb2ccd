/**
 Triggered tasks: a change that was submitted is followed by a run that starts after it,
 unless the row still asks for one; runs are recorded in the order of their starts; and
 submissions inside the cooldown are coalesced into one later run. The first two hold of
 handlers without a schedule, and of no others.
 */
module TriggeredTasks {
  import opened Wrappers
  import opened TaskRows
  import opened TaskProtocol
  import opened TaskInvariants

  // ---------- what one event can do to a row ----------

  predicate AtMost(a: Option<Time>, b: Option<Time>) {
    a.None? || (b.Some? && a.value <= b.value)
  }

  /** run_at never decreases: runs are recorded in the order of their starts. */
  lemma RunAtNeverDecreases(c: Config, start: Time, run: seq<Timed>, te: Timed, id: TaskId)
    requires var s := Exec(c, Start(c, start), run); Plain(c, s, id) && id in Step(c, s, te).rows
    ensures var s := Exec(c, Start(c, start), run); AtMost(s.rows[id].runAt, Step(c, s, te).rows[id].runAt)
  {
    InvAlways(c, start, run);
    var s := Exec(c, Start(c, start), run);
    RowStep(c, s, te, id);
    if te.event.Record? && InFlight(s, te.event.pod, id) {
      assert RunInv(c, s, te.event.pod, id);
    }
  }

  /** A triggered row is never deleted and its history only grows. */
  lemma TriggeredRowStays(c: Config, s: State, te: Timed, id: TaskId)
    requires Inv(c, s) && id in s.rows && s.rows[id].kind == Triggered
    ensures var n := Step(c, s, te);
      id in n.rows && n.rows[id].kind == Triggered && n.rows[id].name == s.rows[id].name && s.past[id].lastSubmit <= n.past[id].lastSubmit
  {
    RowStep(c, s, te, id);
    if id !in Step(c, s, te).rows {
      RowGone(c, s, te, id);
    }
  }

  lemma {:induction false} TriggeredRowRemains(c: Config, s: State, after: seq<Timed>, id: TaskId)
    requires Inv(c, s) && id in s.rows && s.rows[id].kind == Triggered
    ensures var n := Exec(c, s, after);
      Inv(c, n) && id in n.rows && n.rows[id].kind == Triggered && n.rows[id].name == s.rows[id].name && s.past[id].lastSubmit <= n.past[id].lastSubmit
    decreases |after|
  {
    if after != [] {
      var last := |after| - 1;
      TriggeredRowRemains(c, s, after[..last], id);
      TriggeredRowStays(c, Exec(c, s, after[..last]), after[last], id);
      StepKeepsInv(c, Exec(c, s, after[..last]), after[last]);
    }
  }

  // ---------- no submission is lost ----------

  /** The k-th event of the run recorded, on this row, an execution that started at `at`. */
  ghost predicate RecordedStart(c: Config, start: Time, run: seq<Timed>, k: nat, id: TaskId, at: Time) {
    k < |run| &&
    var s := Exec(c, Start(c, start), run[..k]);
    var te := run[k];
    te.at > s.now && te.event.Record? && te.event.id == id && Enabled(c, s, te.at, te.event) &&
    OwnedBy(s.rows, id, te.event.pod) && s.pods[te.event.pod].inFlight[id].phase.outcome.startedAt == at
  }

  lemma NewStart(c: Config, s: State, te: Timed, id: TaskId, at: Time)
    requires Inv(c, s) && id in Step(c, s, te).past && at in Step(c, s, te).past[id].starts
    requires !(id in s.past && at in s.past[id].starts)
    ensures te.at > s.now && te.event.Record? && te.event.id == id && Enabled(c, s, te.at, te.event)
    ensures OwnedBy(s.rows, id, te.event.pod) && s.pods[te.event.pod].inFlight[id].phase.outcome.startedAt == at
  {
    if !Writes(te.event) {
      TableUntouched(c, s, te);
    }
  }

  lemma {:induction false} StartsWereRecorded(c: Config, start: Time, run: seq<Timed>, id: TaskId, at: Time)
    requires var s := Exec(c, Start(c, start), run); id in s.past && at in s.past[id].starts
    ensures exists k: nat :: RecordedStart(c, start, run, k, id, at)
    decreases |run|
  {
    if run != [] {
      var last := |run| - 1;
      var s := Exec(c, Start(c, start), run[..last]);
      if id in s.past && at in s.past[id].starts {
        StartsWereRecorded(c, start, run[..last], id, at);
        var k: nat :| RecordedStart(c, start, run[..last], k, id, at);
        assert run[..last][..k] == run[..k];
        assert RecordedStart(c, start, run, k, id, at);
      } else {
        InvAlways(c, start, run[..last]);
        NewStart(c, s, run[last], id, at);
        assert RecordedStart(c, start, run, last, id, at);
      }
    }
  }

  /**
   However submissions, pods, crashes, cancellations and expiring locks interleave: after a
   submission the row either still asks for a run, for no earlier than that submission, or an
   execution that started at or after it has been recorded.
   */
  lemma NoLostTrigger(c: Config, start: Time, before: seq<Timed>, te: Timed, after: seq<Timed>)
    requires var s := Exec(c, Start(c, start), before);
      te.at > s.now && te.event.SubmitTriggered? && Enabled(c, s, te.at, te.event) && te.event.name !in c.scheduled
    ensures var id := te.event.id;
      var run := before + [te] + after;
      var n := Exec(c, Start(c, start), run);
      id in n.rows && n.rows[id].requestAt.Some? && n.rows[id].requestAt.value >= te.at &&
      (Dirty(n.rows[id]) || exists at: Time, k: nat :: at >= te.at && RecordedStart(c, start, run, k, id, at))
  {
    var id := te.event.id;
    var run := before + [te] + after;
    InvAlways(c, start, before);
    ExecSnoc(c, Start(c, start), before, te);
    ExecConcat(c, Start(c, start), before + [te], after);
    InvAlways(c, start, before + [te]);
    TriggeredRowRemains(c, Exec(c, Start(c, start), before + [te]), after, id);
    var n := Exec(c, Start(c, start), run);
    if !Dirty(n.rows[id]) {
      var at := n.rows[id].runAt.value;
      StartsWereRecorded(c, start, run, id, at);
    }
  }

  // ---------- cooldown ----------

  /** Not a record that passes the row's guard, nor a report of a schedule that does; a submission of the row only up to the given time. */
  predicate Quiet(s: State, te: Timed, id: TaskId, until: Time) {
    && !(te.event.Record? && te.event.id == id && OwnedBy(s.rows, id, te.event.pod))
    && !(te.event.Cron? && te.event.step.Report? && id in s.rows && OwnedByName(s.rows[id], te.event.name, te.event.pod))
    && (te.event.SubmitTriggered? && te.event.id == id ==> te.at <= until)
  }

  ghost predicate QuietAlong(c: Config, s: State, after: seq<Timed>, id: TaskId, until: Time)
    decreases |after|
  {
    after != [] ==>
      var last := |after| - 1;
      QuietAlong(c, s, after[..last], id, until) && Quiet(Exec(c, s, after[..last]), after[last], id, until)
  }

  ghost predicate Submits(c: Config, s: State, te: Timed, id: TaskId) {
    te.at > s.now && te.event.SubmitTriggered? && te.event.id == id && Enabled(c, s, te.at, te.event)
  }

  ghost predicate SubmittedDuring(c: Config, s: State, after: seq<Timed>, id: TaskId)
    decreases |after|
  {
    after != [] &&
    var last := |after| - 1;
    (SubmittedDuring(c, s, after[..last], id) || Submits(c, Exec(c, s, after[..last]), after[last], id))
  }

  /** The end of the cooldown that follows the row's last recorded start. */
  predicate Cooling(c: Config, s: State, id: TaskId, until: Time) {
    && id in s.rows && s.rows[id].kind == Triggered && s.rows[id].runAt.Some?
    && s.rows[id].name in c.cooldowns && c.cooldowns[s.rows[id].name] != 0
    && until == s.rows[id].runAt.value + c.cooldowns[s.rows[id].name] * SECOND
  }

  lemma QuietStep(c: Config, s: State, te: Timed, id: TaskId, until: Time)
    requires Inv(c, s) && Cooling(c, s, id, until) && Quiet(s, te, id, until)
    ensures var n := Step(c, s, te);
      Cooling(c, n, id, until) &&
      n.rows[id].requestAt == if Submits(c, s, te, id) then Some(until) else s.rows[id].requestAt
  {
    TriggeredRowStays(c, s, te, id);
    RowStep(c, s, te, id);
  }

  lemma {:induction false} QuietRun(c: Config, s: State, after: seq<Timed>, id: TaskId, until: Time)
    requires Inv(c, s) && Cooling(c, s, id, until) && QuietAlong(c, s, after, id, until)
    ensures var n := Exec(c, s, after);
      Inv(c, n) && Cooling(c, n, id, until) &&
      n.rows[id].requestAt == if SubmittedDuring(c, s, after, id) then Some(until) else s.rows[id].requestAt
    decreases |after|
  {
    if after != [] {
      var last := |after| - 1;
      var shorter := after[..last];
      QuietRun(c, s, shorter, id, until);
      QuietStep(c, Exec(c, s, shorter), after[last], id, until);
      StepKeepsInv(c, Exec(c, s, shorter), after[last]);
    }
  }

  /**
   Any number of submissions after a recorded run and inside its cooldown, whatever else
   happens meanwhile short of another record of the row, ask for one and the same run: not
   listed before the end of the cooldown, still owed, and settled by exactly the runs that
   start then or later.
   */
  lemma {:induction false} CooldownCoalesces(c: Config, start: Time, before: seq<Timed>, after: seq<Timed>, id: TaskId, until: Time)
    requires Cooling(c, Exec(c, Start(c, start), before), id, until)
    requires QuietAlong(c, Exec(c, Start(c, start), before), after, id, until)
    requires SubmittedDuring(c, Exec(c, Start(c, start), before), after, id)
    ensures var n := Exec(c, Start(c, start), before + after);
      id in n.rows && n.rows[id].requestAt == Some(until) && Dirty(n.rows[id]) &&
      (forall t :: t < until ==> !Listable(n.rows[id], Triggered, t)) &&
      (forall outcome: Outcome :: Dirty(Recorded(n.rows[id], outcome)) <==> outcome.startedAt < until)
  {
    InvAlways(c, start, before);
    ExecConcat(c, Start(c, start), before, after);
    QuietRun(c, Exec(c, Start(c, start), before), after, id, until);
  }

  // ---------- what is dispatched after the cooldown ----------

  /** Whatever was listed after `since`, queued or in flight, was listed at `until` or later. */
  ghost predicate ListedLate(s: State, id: TaskId, since: Time, until: Time) {
    forall p :: p in s.pods ==>
      (id in Ids(s.pods[p].ticker.queue) && s.pods[p].ticker.listedAt > since ==> s.pods[p].ticker.listedAt >= until) &&
      (id in s.pods[p].inFlight && s.pods[p].inFlight[id].listedAt > since ==> s.pods[p].inFlight[id].listedAt >= until)
  }

  lemma NothingListedYet(c: Config, s: State, id: TaskId, until: Time)
    requires Inv(c, s)
    ensures ListedLate(s, id, s.now, until)
  {
    forall p | p in s.pods
      ensures id in Ids(s.pods[p].ticker.queue) ==> s.pods[p].ticker.listedAt <= s.now
      ensures id in s.pods[p].inFlight ==> s.pods[p].inFlight[id].listedAt <= s.now
    {
      assert TickerInv(c, s, p);
      assert InFlight(s, p, id) ==> RunInv(c, s, p, id);
    }
  }

  lemma StepKeepsListedLate(c: Config, s: State, te: Timed, id: TaskId, since: Time, until: Time)
    requires Inv(c, s) && ListedLate(s, id, since, until) && id in s.rows && s.rows[id].requestAt == Some(until) && s.rows[id].kind == Triggered
    ensures ListedLate(Step(c, s, te), id, since, until)
  {
    var n := Step(c, s, te);
    forall p | p in n.pods
      ensures id in Ids(n.pods[p].ticker.queue) && n.pods[p].ticker.listedAt > since ==> n.pods[p].ticker.listedAt >= until
      ensures id in n.pods[p].inFlight && n.pods[p].inFlight[id].listedAt > since ==> n.pods[p].inFlight[id].listedAt >= until
    {
      SamePods(c, s, te);
      TickerListedLate(c, s, te, id, since, until, p);
      RunListedLate(c, s, te, id, since, until, p);
    }
  }

  lemma TickerListedLate(c: Config, s: State, te: Timed, id: TaskId, since: Time, until: Time, p: PodId)
    requires Inv(c, s) && ListedLate(s, id, since, until) && id in s.rows && s.rows[id].requestAt == Some(until) && s.rows[id].kind == Triggered
    requires p in s.pods && p in Step(c, s, te).pods
    ensures var ticker := Step(c, s, te).pods[p].ticker; id in Ids(ticker.queue) && ticker.listedAt > since ==> ticker.listedAt >= until
  {
    if !MovesTicker(te.event) {
      TickersKept(c, s, te, p);
    } else if te.event.List? && id in Ids(Step(c, s, te).pods[p].ticker.queue) {
      ListsLate(c, s, te, id, until, p);
    } else if !te.event.List? {
      OnlyListingsAdd(c, s, te, p);
    }
  }

  lemma OnlyListingsAdd(c: Config, s: State, te: Timed, p: PodId)
    requires MovesTicker(te.event) && !te.event.List? && p in s.pods && p in Step(c, s, te).pods
    ensures var ticker, was := Step(c, s, te).pods[p].ticker, s.pods[p].ticker;
      Ids(ticker.queue) <= Ids(was.queue) && (ticker.queue != [] ==> ticker.listedAt == was.listedAt)
  {
    if s.pods[p].ticker.queue != [] {
      QueueShrinks(s.pods[p].ticker.queue);
    }
  }

  lemma ListsLate(c: Config, s: State, te: Timed, id: TaskId, until: Time, p: PodId)
    requires te.event.List? && id in s.rows && s.rows[id].requestAt == Some(until) && s.rows[id].kind == Triggered
    requires p in s.pods && p in Step(c, s, te).pods && id in Ids(Step(c, s, te).pods[p].ticker.queue)
    ensures Step(c, s, te).pods[p].ticker == s.pods[p].ticker || Step(c, s, te).pods[p].ticker.listedAt >= until
  {
    if Step(c, s, te) != s && te.event.pod == p {
      var i :| 0 <= i < |te.event.entries| && te.event.entries[i].id == id;
      assert Listable(s.rows[id], te.event.kind, te.at);
    }
  }

  lemma QueueShrinks(queue: seq<Entry>)
    requires queue != []
    ensures Ids(queue[1..]) <= Ids(queue)
  {
    forall id | id in Ids(queue[1..]) ensures id in Ids(queue) {
      var i :| 0 <= i < |queue| - 1 && queue[1..][i].id == id;
      assert queue[i + 1].id == id;
    }
  }

  lemma RunListedLate(c: Config, s: State, te: Timed, id: TaskId, since: Time, until: Time, p: PodId)
    requires ListedLate(s, id, since, until) && p in s.pods && p in Step(c, s, te).pods
    ensures var n := Step(c, s, te);
      id in n.pods[p].inFlight && n.pods[p].inFlight[id].listedAt > since ==> n.pods[p].inFlight[id].listedAt >= until
  {
    if te.event.Acquire? && te.event.pod == p && Step(c, s, te) != s {
      assert s.pods[p].ticker.queue[0].id in Ids(s.pods[p].ticker.queue);
    } else {
      PodStep(c, s, te, p);
      assert id in Step(c, s, te).pods[p].inFlight ==>
        Step(c, s, te).pods[p].inFlight[id].(phase := Done).listedAt == s.pods[p].inFlight[id].(phase := Done).listedAt;
    }
  }

  lemma {:induction false} QuietRunListsLate(c: Config, s: State, after: seq<Timed>, id: TaskId, since: Time, until: Time)
    requires Inv(c, s) && Cooling(c, s, id, until) && QuietAlong(c, s, after, id, until)
    requires s.rows[id].requestAt == Some(until) && ListedLate(s, id, since, until)
    ensures ListedLate(Exec(c, s, after), id, since, until)
    decreases |after|
  {
    if after != [] {
      var last := |after| - 1;
      QuietRunListsLate(c, s, after[..last], id, since, until);
      QuietRun(c, s, after[..last], id, until);
      StepKeepsListedLate(c, Exec(c, s, after[..last]), after[last], id, since, until);
    }
  }

  /**
   A submission inside the cooldown, and anything after it short of a record of the row and
   of submissions after the cooldown: a run that comes from a listing taken after the
   submission was listed, and starts, no earlier than the end of the cooldown.
   */
  lemma {:induction false} DispatchWaitsForCooldown(c: Config, start: Time, before: seq<Timed>, te: Timed, after: seq<Timed>,
                                                    id: TaskId, until: Time, p: PodId)
    requires var s := Exec(c, Start(c, start), before);
      Cooling(c, s, id, until) && Submits(c, s, te, id) && te.at <= until &&
      QuietAlong(c, Step(c, s, te), after, id, until)
    requires var n := Exec(c, Start(c, start), before + [te] + after);
      InFlight(n, p, id) && n.pods[p].inFlight[id].listedAt > te.at
    ensures var task := Exec(c, Start(c, start), before + [te] + after).pods[p].inFlight[id];
      task.listedAt >= until &&
      (task.phase.Executing? ==> task.phase.startedAt > until) &&
      (task.phase.Finished? ==> task.phase.outcome.startedAt > until)
  {
    var s := Exec(c, Start(c, start), before);
    InvAlways(c, start, before);
    ExecSnoc(c, Start(c, start), before, te);
    ExecConcat(c, Start(c, start), before + [te], after);
    QuietStep(c, s, te, id, until);
    StepKeepsInv(c, s, te);
    NothingListedYet(c, Step(c, s, te), id, until);
    QuietRunListsLate(c, Step(c, s, te), after, id, te.at, until);
    InvAlways(c, start, before + [te] + after);
    assert RunInv(c, Exec(c, Start(c, start), before + [te] + after), p, id);
  }

  /** A background task starts after the listing that it came from, so not before what that listing required. */
  lemma StartsAfterItsListing(c: Config, start: Time, run: seq<Timed>, p: PodId, id: TaskId)
    requires var s := Exec(c, Start(c, start), run); InFlight(s, p, id) && s.pods[p].inFlight[id].phase.Executing?
    ensures var s := Exec(c, Start(c, start), run);
      s.pods[p].inFlight[id].listedAt < s.pods[p].inFlight[id].acquiredAt < s.pods[p].inFlight[id].phase.startedAt
  {
    InvAlways(c, start, run);
    assert RunInv(c, Exec(c, Start(c, start), run), p, id);
  }
}
