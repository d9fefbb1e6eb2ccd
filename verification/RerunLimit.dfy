/**
 The bound on re-executions is met: for every limit and every set of pods there is a run in
 which a oneshot row runs as often as its limit says and then once more on every pod.
 */
module RerunLimit {
  import opened Wrappers
  import opened TaskRows
  import opened TaskProtocol

  ghost predicate Reaches(c: Config, s: State, n: State) {
    exists run :: n == Exec(c, s, run)
  }

  lemma Here(c: Config, s: State)
    ensures Reaches(c, s, s)
  {
    assert s == Exec(c, s, []);
  }

  lemma Next(c: Config, s: State, m: State, te: Timed, n: State)
    requires Reaches(c, s, m) && n == Step(c, m, te)
    ensures Reaches(c, s, n)
  {
    var run :| m == Exec(c, s, run);
    ExecSnoc(c, s, run, te);
  }

  lemma Onwards(c: Config, s: State, m: State, n: State)
    requires Reaches(c, s, m) && Reaches(c, m, n)
    ensures Reaches(c, s, n)
  {
    var first :| m == Exec(c, s, first);
    var second :| n == Exec(c, m, second);
    ExecConcat(c, s, first, second);
  }

  /** Every pod knows the handler; nothing stands in the way of the row. */
  predicate Open(c: Config, name: Name) {
    name !in c.cooldowns && name !in c.caps && forall p :: p in c.pods ==> (p, name) in c.registered
  }

  /** The only row, with the given limit, as the given listing entry shows it. */
  predicate OnlyRow(c: Config, s: State, e: Entry, limit: int) {
    s.pods.Keys == c.pods && s.rows.Keys == {e.id} && e.id in s.past && Open(c, e.name) &&
    s.rows[e.id].kind == Oneshot && s.rows[e.id].maxRuns == Some(limit) && e == EntryOf(e.id, s.rows[e.id])
  }

  predicate HoldsEntry(pod: Pod, e: Entry) {
    pod.ticker.kind == Oneshot && pod.ticker.queue == [e] && pod.ticker.stage == Fresh
  }

  /** These pods hold an entry, and do not run the row. */
  predicate AllHold(s: State, pods: set<PodId>, e: Entry) {
    forall p :: p in pods ==> p in s.pods && HoldsEntry(s.pods[p], e) && e.id !in s.pods[p].inFlight
  }

  function Locker(s: State, p: PodId, e: Entry): State
    requires p in s.pods && e.id in s.rows && e.id in s.past
  {
    var t := s.now + 2;
    var ticker := s.pods[p].ticker;
    var past := s.past[e.id];
    var run := Run(Oneshot, e.name, e.timeout, past.acquisitions + 1, ticker.listedAt, t, Dispatched);
    State(t, s.rows[e.id := Locked(s.rows[e.id], p, t, e.timeout + LOCK_TTL_BUFFER)],
          s.pods[p := s.pods[p].(ticker := ticker.(queue := [], stage := Fresh), inFlight := s.pods[p].inFlight[e.id := run])],
          s.past[e.id := past.(acquisitions := past.acquisitions + 1)])
  }

  /** However old its entry and whatever the row's status: the pod locks the row. */
  lemma Locks(c: Config, s: State, p: PodId, e: Entry, limit: int)
    requires OnlyRow(c, s, e, limit) && p in s.pods && HoldsEntry(s.pods[p], e) && e.id !in s.pods[p].inFlight && s.rows[e.id].owner.None?
    ensures Reaches(c, s, Locker(s, p, e))
  {
    Here(c, s);
    InspectStep(c, s, s.now + 1, p);
    var m := Advance(s, p, Inspected).(now := s.now + 1);
    Next(c, s, s, Timed(s.now + 1, Inspect(p)), m);
    AcquireStep(c, m, s.now + 2, p);
    var n := Locker(s, p, e);
    assert [e][1..] == [];
    assert m.pods[p := n.pods[p]] == s.pods[p := n.pods[p]];
    assert AfterAcquire(m, s.now + 2, p).(now := s.now + 2) == n;
    Next(c, s, m, Timed(s.now + 2, Acquire(p)), Locker(s, p, e));
  }

  function Finisher(s: State, p: PodId, id: TaskId): State
    requires InFlight(s, p, id) && s.pods[p].inFlight[id].phase.Executing? && id in s.rows && id in s.past
  {
    var outcome := Outcome(true, s.pods[p].inFlight[id].phase.startedAt, "", 1);
    SetPhase(s, p, id, Deleting(true)).(
      now := s.now + 3, rows := s.rows[id := Unlocked(Recorded(s.rows[id], Reported(outcome)))],
      past := s.past[id := s.past[id].(starts := s.past[id].starts + {outcome.startedAt})])
  }

  lemma Finishes(c: Config, s: State, p: PodId, id: TaskId)
    requires InFlight(s, p, id) && s.pods[p].inFlight[id].phase.Executing? && OwnedBy(s.rows, id, p) && id in s.past
    ensures Reaches(c, s, Finisher(s, p, id))
  {
    Here(c, s);
    var outcome := Outcome(true, s.pods[p].inFlight[id].phase.startedAt, "", 1);
    var s1 := SetPhase(s, p, id, Finished(outcome)).(now := s.now + 1);
    FinishStep(c, s, s.now + 1, p, id, true, "", 1);
    Next(c, s, s, Timed(s.now + 1, Finish(p, id, true, "", 1)), s1);
    var s2 := AfterRecord(s1, p, id, false).(now := s.now + 2);
    RecordStep(c, s1, s.now + 2, p, id, false);
    Next(c, s, s1, Timed(s.now + 2, Record(p, id, false)), s2);
    ReleaseStep(c, s2, s.now + 3, p, id, false);
    var n := Finisher(s, p, id);
    assert s.pods[p].inFlight[id := s1.pods[p].inFlight[id]][id := s2.pods[p].inFlight[id]][id := n.pods[p].inFlight[id]] == n.pods[p].inFlight;
    assert s.pods[p := s1.pods[p]][p := s2.pods[p]][p := n.pods[p]] == n.pods;
    assert s2.rows[id := n.rows[id]] == n.rows;
    assert SetPhase(s2, p, id, Deleting(true)).(now := s.now + 3, rows := ReleaseLock(s2.rows, id, p)) == n;
    Next(c, s, s2, Timed(s.now + 3, Release(p, id, false)), Finisher(s, p, id));
  }

  /** One pod that still holds an entry runs the row once more. */
  lemma OneMore(c: Config, s: State, p: PodId, e: Entry, limit: int, pods: set<PodId>) returns (n: State)
    requires OnlyRow(c, s, e, limit) && AllHold(s, pods, e) && p in pods && s.rows[e.id].owner.None?
    ensures Reaches(c, s, n) && OnlyRow(c, n, e, limit) && AllHold(n, pods - {p}, e)
    ensures n.rows[e.id].owner.None? && n.rows[e.id].runCount == s.rows[e.id].runCount + 1
  {
    Locks(c, s, p, e, limit);
    var m := Locker(s, p, e);
    var b := SetPhase(m, p, e.id, Executing(m.now + 1)).(now := m.now + 1);
    BeginStep(c, m, m.now + 1, p, e.id);
    Next(c, s, m, Timed(m.now + 1, Begin(p, e.id)), b);
    Finishes(c, b, p, e.id);
    n := Finisher(b, p, e.id);
    Onwards(c, s, b, n);
  }

  lemma {:induction false} OnceMoreEach(c: Config, s: State, e: Entry, limit: int, pods: set<PodId>) returns (n: State)
    requires OnlyRow(c, s, e, limit) && AllHold(s, pods, e) && s.rows[e.id].owner.None?
    ensures Reaches(c, s, n) && OnlyRow(c, n, e, limit) && n.rows[e.id].runCount == s.rows[e.id].runCount + |pods|
    decreases |pods|
  {
    Here(c, s);
    n := s;
    if pods != {} {
      var p :| p in pods;
      var m := OneMore(c, s, p, e, limit, pods);
      n := OnceMoreEach(c, m, e, limit, pods - {p});
      Onwards(c, s, m, n);
    }
  }

  // ---------- listing the row while its lock has expired ----------

  predicate Lapsed(row: Row, now: Time, limit: int) {
    row.status == Running && row.expireAt.Some? && row.expireAt.value <= now && row.runCount < limit
  }

  lemma {:induction false} TheyList(c: Config, s: State, e: Entry, limit: int, pods: set<PodId>) returns (n: State)
    requires OnlyRow(c, s, e, limit) && Lapsed(s.rows[e.id], s.now, limit)
    requires forall p :: p in pods ==> p in s.pods && s.pods[p].ticker.queue == []
    ensures Reaches(c, s, n) && OnlyRow(c, n, e, limit) && n.rows == s.rows && n.past == s.past
    ensures forall p :: p in pods ==> p in n.pods && HoldsEntry(n.pods[p], e)
    ensures forall p :: p in s.pods ==> p in n.pods && n.pods[p].inFlight == s.pods[p].inFlight && (p !in pods ==> n.pods[p] == s.pods[p])
    decreases |pods|
  {
    Here(c, s);
    n := s;
    if pods != {} {
      var p :| p in pods;
      var m := SetTicker(s, p, Ticker(Oneshot, s.now + 1, [e], Fresh)).(now := s.now + 1);
      assert IsListing(s.rows, Oneshot, s.now + 1, [e]) by { assert [e][0].id == e.id; }
      ListStep(c, s, s.now + 1, p, Oneshot, [e]);
      Next(c, s, s, Timed(s.now + 1, List(p, Oneshot, [e])), m);
      n := TheyList(c, m, e, limit, pods - {p});
      Onwards(c, s, m, n);
    }
  }

  // ---------- an execution outlives its lock ----------

  /** A pod executes the row, has lost its lock, and nothing is left of its listing. */
  predicate Overruns(c: Config, s: State, p: PodId, e: Entry, limit: int, count: nat) {
    && OnlyRow(c, s, e, limit) && p in s.pods && OwnedBy(s.rows, e.id, p)
    && s.rows[e.id].status == Running && s.rows[e.id].expireAt.Some? && s.rows[e.id].expireAt.value <= s.now && s.rows[e.id].runCount == count
    && s.pods[p].inFlight.Keys == {e.id} && s.pods[p].inFlight[e.id].phase.Executing? && s.pods[p].inFlight[e.id].kind == Oneshot
    && s.pods[p].ticker.queue == []
    && forall q :: q in s.pods && q != p ==> s.pods[q] == IDLE
  }

  /** A cleanup that finds nothing lets any amount of time pass. */
  lemma Waits(c: Config, s: State, e: Entry, limit: int, t: Time)
    requires OnlyRow(c, s, e, limit) && s.rows[e.id].owner.Some? && t > s.now
    ensures Reaches(c, s, s.(now := t))
  {
    Here(c, s);
    assert Cleaned(s.rows, c.retention, t) == s.rows;
    Next(c, s, s, Timed(t, Cleanup), s.(now := t));
  }

  function Later(a: Time, b: Time): (t: Time)
    ensures t > a && t >= b
  {
    if a < b then b else a + 1
  }

  lemma StartsAndLapses(c: Config, s: State, p: PodId, e: Entry, limit: int) returns (n: State)
    requires OnlyRow(c, s, e, limit) && p in s.pods && HoldsEntry(s.pods[p], e) && s.pods[p].inFlight == map[] && s.rows[e.id].owner.None?
    requires forall q :: q in s.pods && q != p ==> s.pods[q] == IDLE
    ensures Reaches(c, s, n) && Overruns(c, n, p, e, limit, s.rows[e.id].runCount)
  {
    Locks(c, s, p, e, limit);
    var m := Locker(s, p, e);
    var b := SetPhase(m, p, e.id, Executing(m.now + 1)).(now := m.now + 1);
    BeginStep(c, m, m.now + 1, p, e.id);
    Next(c, s, m, Timed(m.now + 1, Begin(p, e.id)), b);
    var t := Later(b.now, b.rows[e.id].expireAt.value);
    Waits(c, b, e, limit, t);
    n := b.(now := t);
    Onwards(c, s, b, n);
  }

  // ---------- and ends ----------

  /** The background task ends and leaves the pod. */
  lemma Retires(c: Config, s: State, p: PodId, e: Entry, limit: int)
    requires OnlyRow(c, s, e, limit) && InFlight(s, p, e.id) && s.pods[p].inFlight[e.id].phase == Deleting(true)
    requires s.pods[p].inFlight[e.id].kind == Oneshot
    ensures Reaches(c, s, s.(now := s.now + 2, pods := s.pods[p := s.pods[p].(inFlight := s.pods[p].inFlight - {e.id})]))
  {
    Here(c, s);
    var m := SetPhase(s, p, e.id, Done).(now := s.now + 1);
    var fails := c.retention.successSeconds == 0;
    DeleteStep(c, s, s.now + 1, p, e.id, fails);
    Next(c, s, s, Timed(s.now + 1, Delete(p, e.id, fails)), m);
    RetireStep(c, m, s.now + 2, p, e.id);
    var n := m.(now := s.now + 2, pods := m.pods[p := m.pods[p].(inFlight := m.pods[p].inFlight - {e.id})]);
    Next(c, s, m, Timed(s.now + 2, Retire(p, e.id)), n);
    assert m.pods[p].inFlight - {e.id} == s.pods[p].inFlight - {e.id};
    assert s.pods[p := m.pods[p]][p := n.pods[p]] == s.pods[p := n.pods[p]];
  }

  /** Some pods list the row while the execution goes on, and keep their entries when it has recorded its success. */
  lemma RunEnds(c: Config, s: State, p: PodId, e: Entry, limit: int, count: nat, pods: set<PodId>) returns (n: State)
    requires Overruns(c, s, p, e, limit, count) && count < limit && p in pods && pods <= c.pods
    ensures Reaches(c, s, n) && OnlyRow(c, n, e, limit) && AllHold(n, pods, e)
    ensures n.rows[e.id].owner.None? && n.rows[e.id].runCount == count + 1 && n.pods[p].inFlight == map[]
    ensures forall q :: q in n.pods && q !in pods ==> n.pods[q] == IDLE
  {
    var l := TheyList(c, s, e, limit, pods);
    Finishes(c, l, p, e.id);
    var m := Finisher(l, p, e.id);
    Onwards(c, s, l, m);
    Retires(c, m, p, e, limit);
    n := m.(now := m.now + 2, pods := m.pods[p := m.pods[p].(inFlight := m.pods[p].inFlight - {e.id})]);
    Onwards(c, s, m, n);
  }

  // ---------- from the submission to the last permitted execution ----------

  lemma Submitted(c: Config, start: Time, e: Entry, limit: int) returns (n: State)
    requires Open(c, e.name) && e.timeout > 0
    ensures Reaches(c, Start(c, start), n) && OnlyRow(c, n, e, limit) && n.rows[e.id].status == Pending && n.rows[e.id].owner.None?
    ensures n.rows[e.id].runCount == 0 && forall p :: p in n.pods ==> n.pods[p] == IDLE
  {
    var s := Start(c, start);
    Here(c, s);
    n := State(start + 1, map[e.id := NewRow(Oneshot, e.name, None, e.timeout, Some(limit), None, start + 1)], s.pods,
               map[e.id := Past(Oneshot, e.name, 0, start + 1, {})]);
    Next(c, s, s, Timed(start + 1, SubmitOneshot(e.id, e.name, None, e.timeout, Some(limit))), n);
  }

  lemma FirstOverrun(c: Config, start: Time, p: PodId, e: Entry, limit: int) returns (n: State)
    requires Open(c, e.name) && e.timeout > 0 && p in c.pods && limit >= 1
    ensures Reaches(c, Start(c, start), n) && Overruns(c, n, p, e, limit, 0)
  {
    var s := Submitted(c, start, e, limit);
    var l := SetTicker(s, p, Ticker(Oneshot, s.now + 1, [e], Fresh)).(now := s.now + 1);
    assert IsListing(s.rows, Oneshot, s.now + 1, [e]) by { assert [e][0].id == e.id; }
    ListStep(c, s, s.now + 1, p, Oneshot, [e]);
    Next(c, Start(c, start), s, Timed(s.now + 1, List(p, Oneshot, [e])), l);
    n := StartsAndLapses(c, l, p, e, limit);
    Onwards(c, Start(c, start), l, n);
  }

  /** One execution ends, and with the entry listed meanwhile the next one starts and outlives its lock as well. */
  lemma NextOverrun(c: Config, s: State, p: PodId, e: Entry, limit: int, count: nat) returns (n: State)
    requires Overruns(c, s, p, e, limit, count) && count < limit
    ensures Reaches(c, s, n) && Overruns(c, n, p, e, limit, count + 1)
  {
    var m := RunEnds(c, s, p, e, limit, count, {p});
    n := StartsAndLapses(c, m, p, e, limit);
    Onwards(c, s, m, n);
  }

  lemma {:induction false} LastOverrun(c: Config, start: Time, p: PodId, e: Entry, limit: int, count: nat) returns (n: State)
    requires Open(c, e.name) && e.timeout > 0 && p in c.pods && count < limit
    ensures Reaches(c, Start(c, start), n) && Overruns(c, n, p, e, limit, count)
    decreases count
  {
    if count == 0 {
      n := FirstOverrun(c, start, p, e, limit);
    } else {
      var m := LastOverrun(c, start, p, e, limit, count - 1);
      n := NextOverrun(c, m, p, e, limit, count - 1);
      Onwards(c, Start(c, start), m, n);
    }
  }

  /** With `max_runs` N >= 1 and K pods, some run records the row N + K times: the bound cannot be lowered. */
  lemma {:induction false} BoundIsReached(c: Config, start: Time, id: TaskId, name: Name, timeout: int, limit: int)
    requires Open(c, name) && timeout > 0 && c.pods != {} && limit >= 1
    ensures exists run ::
      (var s := Exec(c, Start(c, start), run);
       id in s.rows && s.rows[id].kind == Oneshot && s.rows[id].maxRuns == Some(limit) && s.rows[id].runCount == limit + |c.pods|)
  {
    var e := Entry(id, name, timeout);
    var p :| p in c.pods;
    var overrun := LastOverrun(c, start, p, e, limit, limit - 1);
    var m := RunEnds(c, overrun, p, e, limit, limit - 1, c.pods);
    Onwards(c, Start(c, start), overrun, m);
    var n := OnceMoreEach(c, m, e, limit, c.pods);
    Onwards(c, Start(c, start), m, n);
    var run :| n == Exec(c, Start(c, start), run);
  }
}
