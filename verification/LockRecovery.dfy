/**
 What happens to rows whose pod is gone: any one pod that knows the handler lists the row again
 and executes it, whatever its cap and however long the list - by finishing its own runs and
 waiting until the locks of the others have expired.
 */
module LockRecovery {
  import opened Wrappers
  import opened TaskRows
  import opened TaskProtocol
  import opened TaskInvariants
  import opened StrayRows

  /** Every event of the run belongs to the given pod: to its ticker, or to a background task that runs to its end. */
  predicate OwnEvents(run: seq<Timed>, p: PodId) {
    forall k :: 0 <= k < |run| ==> OwnEvent(run[k].event, p)
  }

  predicate OwnEvent(e: Event, p: PodId) {
    (e.List? || e.Inspect? || e.CountRunning? || e.Acquire? || e.Begin? || e.Finish? || e.Record? || e.Release? || e.Delete? || e.Retire?) &&
    e.pod == p
  }

  /** Events of this pod alone lead from one state to the other. */
  ghost predicate Reaches(c: Config, s: State, n: State, p: PodId) {
    Inv(c, n) && s.now <= n.now && exists run :: OwnEvents(run, p) && n == Exec(c, s, run)
  }

  lemma Here(c: Config, s: State, p: PodId)
    requires Inv(c, s)
    ensures Reaches(c, s, s, p)
  {
    assert OwnEvents([], p) && s == Exec(c, s, []);
  }

  lemma Onwards(c: Config, s: State, m: State, n: State, p: PodId)
    requires Reaches(c, s, m, p) && Reaches(c, m, n, p)
    ensures Reaches(c, s, n, p)
  {
    var first :| OwnEvents(first, p) && m == Exec(c, s, first);
    var second :| OwnEvents(second, p) && n == Exec(c, m, second);
    ExecConcat(c, s, first, second);
    assert OwnEvents(first + second, p);
  }

  lemma OneStep(c: Config, s: State, te: Timed, n: State, p: PodId)
    requires Inv(c, s) && n == Step(c, s, te) && OwnEvent(te.event, p) && s.now <= n.now
    ensures Reaches(c, s, n, p)
  {
    StepKeepsInv(c, s, te);
    ExecSnoc(c, s, [], te);
    assert [] + [te] == [te];
    assert OwnEvents([te], p);
  }

  // ---------- past the head of the queue ----------

  /** All rows but one, and this pod's runs of them, are as they were. */
  ghost predicate OthersKept(s: State, n: State, p: PodId, id: TaskId) {
    && p in s.pods && p in n.pods && n.rows.Keys == s.rows.Keys
    && (forall x :: x != id && x in s.rows ==> n.rows[x] == s.rows[x])
    && (forall x :: x != id && x in n.pods[p].inFlight ==> x in s.pods[p].inFlight)
  }

  /** What getting past the head of the queue leaves as it was. */
  ghost predicate Passed(s: State, n: State, p: PodId) {
    && p in s.pods && p in n.pods && s.pods[p].ticker.queue != []
    && n.pods[p].ticker == s.pods[p].ticker.(queue := s.pods[p].ticker.queue[1..], stage := Fresh)
    && OthersKept(s, n, p, s.pods[p].ticker.queue[0].id)
  }

  /** One check further with the head of the queue, and nothing else. */
  predicate Further(s: State, n: State, p: PodId, stage: Stage) {
    && p in s.pods && p in n.pods && n.rows == s.rows && n.past == s.past
    && n.pods[p] == s.pods[p].(ticker := s.pods[p].ticker.(stage := stage))
  }

  lemma SkipPasses(s: State, t: Time, p: PodId)
    requires p in s.pods && s.pods[p].ticker.queue != []
    ensures Passed(s, Skip(s, p).(now := t), p)
  {
  }

  lemma LockPasses(s: State, t: Time, p: PodId)
    requires p in s.pods && s.pods[p].ticker.queue != []
    ensures Passed(s, AfterAcquire(s, t, p).(now := t), p)
  {
  }

  lemma FurtherPasses(s: State, m: State, n: State, p: PodId, stage: Stage)
    requires Further(s, m, p, stage) && Passed(m, n, p)
    ensures Passed(s, n, p)
  {
  }

  lemma Inspects(c: Config, s: State, p: PodId, t: Time) returns (n: State)
    requires Inv(c, s) && Busy(s, p, Fresh) && t > s.now
    ensures Reaches(c, s, n, p)
    ensures if Rejected(c, p, s.pods[p]) then Passed(s, n, p) else Further(s, n, p, Inspected) && n.now == t
  {
    n := AfterInspect(c, s, p).(now := t);
    InspectStep(c, s, t, p);
    OneStep(c, s, Timed(t, Inspect(p)), n, p);
    SkipPasses(s, t, p);
  }

  lemma Counts(c: Config, s: State, p: PodId) returns (n: State)
    requires Inv(c, s) && Busy(s, p, Inspected) && Capped(c, s.pods[p].ticker)
    ensures Reaches(c, s, n, p)
    ensures var name := s.pods[p].ticker.queue[0].name;
      if |LiveIds(s.rows, name, s.now + 1)| >= c.caps[name] then Passed(s, n, p) else Further(s, n, p, Cleared) && n.now == s.now + 1
  {
    n := AfterCount(c, s, s.now + 1, p).(now := s.now + 1);
    CountStep(c, s, s.now + 1, p);
    OneStep(c, s, Timed(s.now + 1, CountRunning(p)), n, p);
    SkipPasses(s, s.now + 1, p);
  }

  lemma TriesLock(c: Config, s: State, p: PodId) returns (n: State)
    requires Inv(c, s) && (Busy(s, p, Cleared) || (Busy(s, p, Inspected) && !Capped(c, s.pods[p].ticker)))
    ensures Reaches(c, s, n, p) && Passed(s, n, p) && n == AfterAcquire(s, s.now + 1, p).(now := s.now + 1)
  {
    n := AfterAcquire(s, s.now + 1, p).(now := s.now + 1);
    AcquireStep(c, s, s.now + 1, p);
    OneStep(c, s, Timed(s.now + 1, Acquire(p)), n, p);
    LockPasses(s, s.now + 1, p);
  }

  /** The pod gets past the head of its queue, whatever it finds there; the other rows are not touched. */
  lemma PassHead(c: Config, s: State, p: PodId) returns (n: State)
    requires Inv(c, s) && Busy(s, p, Fresh)
    ensures Reaches(c, s, n, p) && Passed(s, n, p)
  {
    n := Inspects(c, s, p, s.now + 1);
    if !Rejected(c, p, s.pods[p]) {
      var m := n;
      n := PassInspected(c, m, p);
      Onwards(c, s, m, n, p);
      FurtherPasses(s, m, n, p, Inspected);
    }
  }

  lemma PassInspected(c: Config, s: State, p: PodId) returns (n: State)
    requires Inv(c, s) && Busy(s, p, Inspected)
    ensures Reaches(c, s, n, p) && Passed(s, n, p)
  {
    if !Capped(c, s.pods[p].ticker) {
      n := TriesLock(c, s, p);
    } else {
      n := Counts(c, s, p);
      if |LiveIds(s.rows, s.pods[p].ticker.queue[0].name, s.now + 1)| < c.caps[s.pods[p].ticker.queue[0].name] {
        var m := n;
        n := TriesLock(c, m, p);
        Onwards(c, s, m, n, p);
        FurtherPasses(s, m, n, p, Cleared);
      }
    }
  }

  // ---------- the pod's own runs ----------

  /** What the steps of one run leave as it was. */
  ghost predicate OnlyRun(s: State, n: State, p: PodId, id: TaskId) {
    && p in s.pods && p in n.pods && n.pods[p].ticker == s.pods[p].ticker
    && n.pods[p].inFlight.Keys <= s.pods[p].inFlight.Keys
    && forall x :: x in s.rows && x != id ==> x in n.rows && n.rows[x] == s.rows[x]
  }

  function Remaining(phase: Phase): nat {
    match phase
    case Dispatched => 6
    case Executing(_) => 5
    case Finished(_) => 4
    case Unlocking(_) => 3
    case Deleting(_) => 2
    case Done => 1
  }

  /** The next event of a background task that nothing breaks off. */
  function NextOf(p: PodId, id: TaskId, phase: Phase): Event {
    match phase
    case Dispatched => Begin(p, id)
    case Executing(_) => Finish(p, id, true, "", 1)
    case Finished(_) => Record(p, id, false)
    case Unlocking(_) => Release(p, id, false)
    case Deleting(_) => Delete(p, id, false)
    case Done => Retire(p, id)
  }

  lemma MovesOn(c: Config, s: State, p: PodId, id: TaskId) returns (n: State)
    requires Inv(c, s) && InFlight(s, p, id)
    ensures Reaches(c, s, n, p) && OnlyRun(s, n, p, id)
    ensures InFlight(n, p, id) ==> Remaining(n.pods[p].inFlight[id].phase) < Remaining(s.pods[p].inFlight[id].phase)
  {
    var te := Timed(s.now + 1, NextOf(p, id, s.pods[p].inFlight[id].phase));
    n := Step(c, s, te);
    assert n.now == te.at;
    OneStep(c, s, te, n, p);
    OneRunMoves(c, s, p, id);
  }

  lemma OneRunMoves(c: Config, s: State, p: PodId, id: TaskId)
    requires InFlight(s, p, id)
    ensures var n := Step(c, s, Timed(s.now + 1, NextOf(p, id, s.pods[p].inFlight[id].phase)));
      OnlyRun(s, n, p, id) &&
      (InFlight(n, p, id) ==> Remaining(n.pods[p].inFlight[id].phase) < Remaining(s.pods[p].inFlight[id].phase))
  {
    var t := s.now + 1;
    match s.pods[p].inFlight[id].phase
    case Dispatched => BeginStep(c, s, t, p, id);
    case Executing(_) => FinishStep(c, s, t, p, id, true, "", 1);
    case Finished(_) => RecordStep(c, s, t, p, id, false);
    case Unlocking(_) => ReleaseStep(c, s, t, p, id, false);
    case Deleting(_) => DeleteStep(c, s, t, p, id, false);
    case Done => RetireStep(c, s, t, p, id);
  }

  lemma {:induction false} EndsRun(c: Config, s: State, p: PodId, id: TaskId) returns (n: State)
    requires Inv(c, s) && InFlight(s, p, id)
    ensures Reaches(c, s, n, p) && OnlyRun(s, n, p, id) && id !in n.pods[p].inFlight
    decreases Remaining(s.pods[p].inFlight[id].phase)
  {
    n := MovesOn(c, s, p, id);
    if InFlight(n, p, id) {
      var m := n;
      n := EndsRun(c, m, p, id);
      Onwards(c, s, m, n, p);
    }
  }

  /** The pod's background tasks have left; its ticker and the rows that it was not running are as they were. */
  ghost predicate Emptied(s: State, n: State, p: PodId) {
    && p in s.pods && p in n.pods && n.pods[p].ticker == s.pods[p].ticker && n.pods[p].inFlight == map[]
    && forall x :: x in s.rows && x !in s.pods[p].inFlight ==> x in n.rows && n.rows[x] == s.rows[x]
  }

  lemma {:induction false} EndsRuns(c: Config, s: State, p: PodId) returns (n: State)
    requires Inv(c, s) && p in s.pods
    ensures Reaches(c, s, n, p) && Emptied(s, n, p)
    decreases |s.pods[p].inFlight|
  {
    if s.pods[p].inFlight == map[] {
      Here(c, s, p);
      n := s;
    } else {
      var id :| id in s.pods[p].inFlight;
      var m := EndsRun(c, s, p, id);
      FewerRuns(s.pods[p], m.pods[p], id);
      n := EndsRuns(c, m, p);
      Onwards(c, s, m, n, p);
    }
  }

  lemma FewerRuns(pod: Pod, next: Pod, id: TaskId)
    requires id in pod.inFlight && id !in next.inFlight && next.inFlight.Keys <= pod.inFlight.Keys
    ensures |next.inFlight| < |pod.inFlight|
  {
    SubsetSize(next.inFlight.Keys, pod.inFlight.Keys - {id});
    assert |next.inFlight| == |next.inFlight.Keys| && |pod.inFlight| == |pod.inFlight.Keys|;
  }

  // ---------- up to a given row of the queue ----------

  /** The row is the k-th on the pod's queue, and not in flight there. */
  ghost predicate Queued(c: Config, s: State, p: PodId, k: nat, e: Entry) {
    Inv(c, s) && Busy(s, p, Fresh) && k < |s.pods[p].ticker.queue| && s.pods[p].ticker.queue[k] == e &&
    e.id in s.rows && e.id !in s.pods[p].inFlight
  }

  lemma OneNearer(c: Config, s: State, n: State, p: PodId, k: nat, e: Entry)
    requires Queued(c, s, p, k, e) && k > 0 && Inv(c, n) && Passed(s, n, p)
    ensures Queued(c, n, p, k - 1, e) && n.rows[e.id] == s.rows[e.id]
  {
    assert TickerInv(c, s, p);
    assert s.pods[p].ticker.queue[0].id != s.pods[p].ticker.queue[k].id;
  }

  lemma {:induction false} PassQueue(c: Config, s: State, p: PodId, k: nat, e: Entry) returns (n: State)
    requires Queued(c, s, p, k, e)
    ensures Reaches(c, s, n, p) && Queued(c, n, p, 0, e) && n.rows[e.id] == s.rows[e.id]
    decreases k
  {
    if k == 0 {
      Here(c, s, p);
      n := s;
    } else {
      var m := PassHead(c, s, p);
      OneNearer(c, s, m, p, k, e);
      n := PassQueue(c, m, p, k - 1, e);
      Onwards(c, s, m, n, p);
    }
  }

  // ---------- the row is executed ----------

  /** The pod's background task of the row is its latest acquisition, and at work. */
  predicate AtWork(s: State, p: PodId, id: TaskId) {
    InFlight(s, p, id) && id in s.past && Current(s, id, s.pods[p].inFlight[id]) && s.pods[p].inFlight[id].phase.Executing?
  }

  /** The pod knows the handler, and a cap, if there is one, admits a row at all. */
  predicate Knows(c: Config, p: PodId, name: Name) {
    (p, name) in c.registered && (name in c.caps ==> c.caps[name] >= 1)
  }

  /** Some time at which every lock there is has expired. */
  lemma {:induction false} LocksExpire(rows: Table, ids: set<TaskId>, now: Time) returns (t: Time)
    requires ids <= rows.Keys
    ensures t > now && forall id :: id in ids && rows[id].expireAt.Some? ==> rows[id].expireAt.value <= t
    decreases |ids|
  {
    t := now + 1;
    if ids != {} {
      var id :| id in ids;
      t := LocksExpire(rows, ids - {id}, now);
      if rows[id].expireAt.Some? && t < rows[id].expireAt.value {
        t := rows[id].expireAt.value;
      }
    }
  }

  /** With no runs of its own, the pod inspects the row when no lock is alive any more, and locks it. */
  lemma Locks(c: Config, s: State, p: PodId, e: Entry) returns (n: State)
    requires Queued(c, s, p, 0, e) && s.pods[p].inFlight == map[] && Knows(c, p, e.name) && LockFree(s.rows[e.id], s.now)
    ensures Reaches(c, s, n, p) && InFlight(n, p, e.id) && e.id in n.past && n.pods[p].inFlight[e.id].phase == Dispatched
    ensures Current(n, e.id, n.pods[p].inFlight[e.id])
  {
    var t := LocksExpire(s.rows, s.rows.Keys, s.now);
    assert LocalIds(s.pods[p], e.name) == {};
    var m := Inspects(c, s, p, t);
    if Capped(c, s.pods[p].ticker) {
      assert LiveIds(m.rows, e.name, t + 1) == {};
      var cleared := Counts(c, m, p);
      Onwards(c, s, m, cleared, p);
      m := cleared;
    }
    n := TriesLock(c, m, p);
    Onwards(c, s, m, n, p);
    LockTaken(m, p);
  }

  lemma LockTaken(s: State, p: PodId)
    requires p in s.pods && s.pods[p].ticker.queue != []
    requires var id := s.pods[p].ticker.queue[0].id; id in s.rows && LockFree(s.rows[id], s.now + 1)
    ensures var n, id := AfterAcquire(s, s.now + 1, p).(now := s.now + 1), s.pods[p].ticker.queue[0].id;
      InFlight(n, p, id) && id in n.past && n.pods[p].inFlight[id].phase == Dispatched && Current(n, id, n.pods[p].inFlight[id])
  {
  }

  lemma Begins(c: Config, s: State, p: PodId, id: TaskId) returns (n: State)
    requires Inv(c, s) && InFlight(s, p, id) && id in s.past && s.pods[p].inFlight[id].phase == Dispatched
    requires Current(s, id, s.pods[p].inFlight[id])
    ensures Reaches(c, s, n, p) && AtWork(n, p, id)
  {
    n := SetPhase(s, p, id, Executing(s.now + 1)).(now := s.now + 1);
    BeginStep(c, s, s.now + 1, p, id);
    OneStep(c, s, Timed(s.now + 1, Begin(p, id)), n, p);
  }

  lemma WorksOff(c: Config, s: State, p: PodId, k: nat, e: Entry) returns (n: State)
    requires Queued(c, s, p, k, e) && Knows(c, p, e.name) && LockFree(s.rows[e.id], s.now)
    ensures Reaches(c, s, n, p) && AtWork(n, p, e.id)
  {
    var atHead := PassQueue(c, s, p, k, e);
    var emptied := EndsRuns(c, atHead, p);
    Onwards(c, s, atHead, emptied, p);
    var locked := Locks(c, emptied, p, e);
    Onwards(c, s, emptied, locked, p);
    n := Begins(c, locked, p, e.id);
    Onwards(c, s, locked, n, p);
  }

  // ---------- one pod is enough ----------

  lemma Lists(c: Config, s: State, p: PodId, kind: TaskType) returns (n: State)
    requires Inv(c, s) && p in s.pods && s.pods[p].ticker.queue == [] && kind != Scheduled
    ensures Reaches(c, s, n, p) && n.now == s.now + 1 && n.rows == s.rows && p in n.pods && n.pods[p].inFlight == s.pods[p].inFlight
    ensures n.pods[p].ticker.stage == Fresh && n.pods[p].ticker.kind == kind && IsListing(s.rows, kind, s.now + 1, n.pods[p].ticker.queue)
  {
    ListingExists(s.rows, kind, s.now + 1);
    var entries: seq<Entry> :| IsListing(s.rows, kind, s.now + 1, entries);
    n := SetTicker(s, p, Ticker(kind, s.now + 1, entries, Fresh)).(now := s.now + 1);
    ListStep(c, s, s.now + 1, p, kind, entries);
    OneStep(c, s, Timed(s.now + 1, List(p, kind, entries)), n, p);
  }

  lemma ListedAt(rows: Table, kind: TaskType, now: Time, entries: seq<Entry>, id: TaskId) returns (k: nat)
    requires IsListing(rows, kind, now, entries) && id in rows && Listable(rows[id], kind, now)
    ensures k < |entries| && entries[k] == EntryOf(id, rows[id])
  {
    assert id in Ids(entries);
    k :| k < |entries| && entries[k].id == id;
  }

  /**
   In whatever run, and for any handler, capped or not, with a schedule or without: an owed row
   that is due and not stray is executed by any one pod that has finished its last tick, knows
   the handler and does not run the row already - with nothing but events of that pod,
   whatever else is waiting and whoever else has locks.
   */
  lemma {:induction false} OnePodRecovers(c: Config, start: Time, before: seq<Timed>, p: PodId, id: TaskId)
    requires var s := Exec(c, Start(c, start), before);
      p in s.pods && s.pods[p].ticker.queue == [] && id in s.rows && id !in s.pods[p].inFlight &&
      Owed(s.rows[id]) && Due(s.rows[id], s.now) && !Stray(s.rows[id]) && Knows(c, p, s.rows[id].name)
    ensures exists after :: OwnEvents(after, p) && AtWork(Exec(c, Start(c, start), before + after), p, id)
  {
    var s := Exec(c, Start(c, start), before);
    InvAlways(c, start, before);
    RecoverableExactly(c, start, before, id, s.now + 1);
    var n := ListsAndWorks(c, s, p, id);
    var after :| OwnEvents(after, p) && n == Exec(c, s, after);
    ExecConcat(c, Start(c, start), before, after);
  }

  lemma ListsAndWorks(c: Config, s: State, p: PodId, id: TaskId) returns (n: State)
    requires Inv(c, s) && p in s.pods && s.pods[p].ticker.queue == [] && id in s.rows && id !in s.pods[p].inFlight
    requires Listable(s.rows[id], s.rows[id].kind, s.now + 1) && LockFree(s.rows[id], s.now + 1) && Knows(c, p, s.rows[id].name)
    ensures Reaches(c, s, n, p) && AtWork(n, p, id)
  {
    var listed := Lists(c, s, p, s.rows[id].kind);
    var k := ListedAt(s.rows, s.rows[id].kind, s.now + 1, listed.pods[p].ticker.queue, id);
    n := WorksOff(c, listed, p, k, EntryOf(id, s.rows[id]));
    Onwards(c, s, listed, n, p);
  }

  // ---------- what an old entry is good for ----------

  /** A stray row is executed again if some pod that knows the handler and does not run the row still has it queued. */
  lemma {:induction false} QueuedStrayIsExecuted(c: Config, start: Time, before: seq<Timed>, p: PodId, k: nat, e: Entry)
    requires var s := Exec(c, Start(c, start), before);
      e.id in s.rows && Stray(s.rows[e.id]) && Busy(s, p, Fresh) && k < |s.pods[p].ticker.queue| && s.pods[p].ticker.queue[k] == e &&
      e.id !in s.pods[p].inFlight && Knows(c, p, e.name)
    ensures exists after :: OwnEvents(after, p) && AtWork(Exec(c, Start(c, start), before + after), p, e.id)
  {
    var s := Exec(c, Start(c, start), before);
    InvAlways(c, start, before);
    var n := WorksOff(c, s, p, k, e);
    var after :| OwnEvents(after, p) && n == Exec(c, s, after);
    ExecConcat(c, Start(c, start), before, after);
  }
}
