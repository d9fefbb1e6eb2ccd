/**
 Oneshot tasks over all interleavings of K pods: how often a row can run although the lock
 never looks at its status again, and how far the number of live runs of a handler can
 exceed its declared cap.
 */
module OneshotTasks {
  import opened Wrappers
  import opened TaskRows
  import opened TaskProtocol
  import opened TaskInvariants

  // ---------- bounded re-execution ----------

  /** The pods that still hold a listing entry for the row, however old. */
  function Waiting(s: State, id: TaskId): set<PodId> {
    set p | p in s.pods && id in Ids(s.pods[p].ticker.queue)
  }

  /** The owner's run can still record a result. */
  predicate Held(s: State, id: TaskId) {
    id in s.rows && s.rows[id].owner.Some? && InFlight(s, s.rows[id].owner.value, id) &&
    Unrecorded(s.pods[s.rows[id].owner.value].inFlight[id].phase)
  }

  /** How many more times the row can run without being listed again. */
  function Load(s: State, id: TaskId): nat {
    |Waiting(s, id)| + if Held(s, id) then 1 else 0
  }

  predicate Exhausted(row: Row) {
    row.kind == Oneshot && row.maxRuns.Some? && row.runCount >= row.maxRuns.value
  }

  function Limit(row: Row): int
    requires row.maxRuns.Some?
  {
    if row.maxRuns.value > 0 then row.maxRuns.value else 0
  }

  predicate Bounded(c: Config, s: State, id: TaskId)
    requires id in s.rows
  {
    s.rows[id].name !in c.scheduled && Exhausted(s.rows[id]) ==> s.rows[id].runCount + Load(s, id) <= Limit(s.rows[id]) + |c.pods|
  }

  lemma QueueTail(c: Config, s: State, p: PodId)
    requires p in s.pods && TickerInv(c, s, p) && s.pods[p].ticker.queue != []
    ensures var queue := s.pods[p].ticker.queue; Ids(queue[1..]) == Ids(queue) - {queue[0].id}
  {
    var queue := s.pods[p].ticker.queue;
    forall id | id in Ids(queue) - {queue[0].id} ensures id in Ids(queue[1..]) {
      var i :| 0 <= i < |queue| && queue[i].id == id;
      assert queue[1..][i - 1].id == id;
    }
    forall id | id in Ids(queue[1..]) ensures id in Ids(queue) - {queue[0].id} {
      var i :| 0 <= i < |queue| - 1 && queue[1..][i].id == id;
      assert queue[i + 1].id == id;
    }
  }

  /** Nobody joins the pods that hold an entry, except by a listing. */
  lemma WaitingStep(c: Config, s: State, te: Timed, id: TaskId)
    requires Inv(c, s)
    ensures var n := Step(c, s, te);
      Waiting(n, id) <= Waiting(s, id) || (te.event.List? && id in s.rows && Listable(s.rows[id], te.event.kind, te.at))
  {
    if !MovesTicker(te.event) {
      WaitingKept(c, s, te, id);
    } else if te.event.pod in s.pods && Step(c, s, te) != s {
      forall p | p in Waiting(Step(c, s, te), id) && !te.event.List? ensures p in Waiting(s, id) {
        StaysWaiting(c, s, te, id, p);
      }
    }
  }

  lemma StaysWaiting(c: Config, s: State, te: Timed, id: TaskId, p: PodId)
    requires Inv(c, s) && MovesTicker(te.event) && !te.event.List? && Step(c, s, te) != s
    requires p in Waiting(Step(c, s, te), id)
    ensures p in Waiting(s, id)
  {
    if p == te.event.pod && s.pods[p].ticker.queue != [] {
      assert TickerInv(c, s, p);
      QueueTail(c, s, p);
    }
  }

  /** Trying the lock takes the entry off the queue, for good. */
  lemma WaitingAfterLock(c: Config, s: State, te: Timed)
    requires Inv(c, s) && te.event.Acquire? && Step(c, s, te) != s
    ensures var id := s.pods[te.event.pod].ticker.queue[0].id;
      te.event.pod in Waiting(s, id) && Waiting(Step(c, s, te), id) == Waiting(s, id) - {te.event.pod}
  {
    assert TickerInv(c, s, te.event.pod);
    QueueTail(c, s, te.event.pod);
    assert s.pods[te.event.pod].ticker.queue[0].id in Ids(s.pods[te.event.pod].ticker.queue);
  }

  lemma WaitingKept(c: Config, s: State, te: Timed, id: TaskId)
    requires !MovesTicker(te.event)
    ensures Waiting(Step(c, s, te), id) <= Waiting(s, id)
  {
    forall p | p in s.pods ensures Step(c, s, te).pods.Keys == s.pods.Keys && Step(c, s, te).pods[p].ticker == s.pods[p].ticker {
      TickersKept(c, s, te, p);
    }
  }

  lemma LoadStep(c: Config, s: State, te: Timed, id: TaskId)
    requires Inv(c, s) && Plain(c, s, id) && id in Step(c, s, te).rows && s.rows[id].kind == Oneshot
    ensures var n := Step(c, s, te);
      || (n.rows[id].runCount == s.rows[id].runCount && Load(n, id) <= Load(s, id))
      || (n.rows[id].runCount == s.rows[id].runCount && te.event.List? && Listable(s.rows[id], te.event.kind, te.at))
      || (n.rows[id].runCount == s.rows[id].runCount + 1 && Load(n, id) == |Waiting(n, id)| && Load(n, id) + 1 <= Load(s, id))
  {
    var n := Step(c, s, te);
    WaitingStep(c, s, te, id);
    RowStep(c, s, te, id);
    if Waiting(n, id) <= Waiting(s, id) {
      SubsetSize(Waiting(n, id), Waiting(s, id));
      HeldStep(c, s, te, id);
      if te.event.Acquire? && n != s {
        WaitingAfterLock(c, s, te);
      }
    }
  }

  /** A row becomes held only by being locked, and stops being held when its run records. */
  lemma HeldStep(c: Config, s: State, te: Timed, id: TaskId)
    requires Inv(c, s) && Plain(c, s, id) && id in Step(c, s, te).rows && s.rows[id].kind == Oneshot
    ensures var n := Step(c, s, te);
      Held(n, id) && !Held(s, id) ==>
        n != s && te.event.Acquire? && s.pods[te.event.pod].ticker.queue[0].id == id && n.rows[id].runCount == s.rows[id].runCount
    ensures var n := Step(c, s, te);
      n.rows[id].runCount != s.rows[id].runCount ==> n.rows[id].runCount == s.rows[id].runCount + 1 && Held(s, id) && !Held(n, id)
  {
    RowStep(c, s, te, id);
    var n := Step(c, s, te);
    if Held(n, id) && !(te.event.Acquire? && n != s && s.pods[te.event.pod].ticker.queue[0].id == id) {
      HeldBefore(c, s, te, id);
    }
  }

  lemma HeldBefore(c: Config, s: State, te: Timed, id: TaskId)
    requires Inv(c, s) && Plain(c, s, id) && id in Step(c, s, te).rows && Held(Step(c, s, te), id)
    requires !(te.event.Acquire? && Step(c, s, te) != s && s.pods[te.event.pod].ticker.queue[0].id == id)
    ensures Held(s, id)
  {
    OwnerBefore(c, s, te, id);
    var q := s.rows[id].owner.value;
    if !(te.event.Acquire? && te.event.pod == q && Step(c, s, te) != s) {
      PodStep(c, s, te, q);
    }
  }

  lemma OwnerBefore(c: Config, s: State, te: Timed, id: TaskId)
    requires Inv(c, s) && Plain(c, s, id) && id in Step(c, s, te).rows && Step(c, s, te).rows[id].owner.Some?
    requires !(te.event.Acquire? && Step(c, s, te) != s && s.pods[te.event.pod].ticker.queue[0].id == id)
    ensures s.rows[id].owner == Step(c, s, te).rows[id].owner && Step(c, s, te).pods.Keys == s.pods.Keys
  {
    RowStep(c, s, te, id);
    SamePods(c, s, te);
  }

  lemma StepKeepsBounded(c: Config, s: State, te: Timed, id: TaskId)
    requires Inv(c, s) && id in Step(c, s, te).rows
    requires id in s.rows ==> Bounded(c, s, id)
    ensures Bounded(c, Step(c, s, te), id)
  {
    var n := Step(c, s, te);
    if id !in s.rows {
      NewRowIsIdle(c, s, te, id);
    } else if s.rows[id].kind == Oneshot && Plain(c, s, id) {
      LimitKept(c, s, te, id);
      LoadStep(c, s, te, id);
      StepKeepsInv(c, s, te);
      SubsetSize(Waiting(n, id), c.pods);
    } else {
      RowStep(c, s, te, id);
    }
  }

  lemma LimitKept(c: Config, s: State, te: Timed, id: TaskId)
    requires Inv(c, s) && Plain(c, s, id) && id in Step(c, s, te).rows && s.rows[id].kind == Oneshot
    ensures Step(c, s, te).rows[id].kind == Oneshot && Step(c, s, te).rows[id].maxRuns == s.rows[id].maxRuns
  {
    RowStep(c, s, te, id);
  }

  lemma NewRowIsIdle(c: Config, s: State, te: Timed, id: TaskId)
    requires Inv(c, s) && id !in s.rows && id in Step(c, s, te).rows
    ensures var n := Step(c, s, te); n.rows[id].runCount == 0 && !Held(n, id) && Waiting(n, id) == {}
  {
    NewKeyIsFree(c, s, te, id);
    NewRowIsFresh(c, s, te, id);
    UnknownIsIdle(c, s, id);
    NewRowKeepsPods(c, s, te, id);
  }

  lemma NewRowIsFresh(c: Config, s: State, te: Timed, id: TaskId)
    requires Inv(c, s) && id !in s.rows && id in Step(c, s, te).rows && NewId(te.event) == Some(id)
    ensures id !in s.past && Step(c, s, te).rows[id].runCount == 0
  {
  }

  lemma NewRowKeepsPods(c: Config, s: State, te: Timed, id: TaskId)
    requires NewId(te.event) == Some(id)
    ensures Step(c, s, te).pods.Keys == s.pods.Keys
    ensures forall p :: p in s.pods ==>
      Step(c, s, te).pods[p].ticker == s.pods[p].ticker && Step(c, s, te).pods[p].inFlight == s.pods[p].inFlight
  {
  }

  lemma UnknownIsIdle(c: Config, s: State, id: TaskId)
    requires Inv(c, s) && id !in s.past
    ensures forall p :: p in s.pods ==> id !in s.pods[p].inFlight && id !in Ids(s.pods[p].ticker.queue)
  {
    forall p | p in s.pods ensures id !in s.pods[p].inFlight && id !in Ids(s.pods[p].ticker.queue) {
      assert TickerInv(c, s, p) && (InFlight(s, p, id) ==> RunInv(c, s, p, id));
      var queue := s.pods[p].ticker.queue;
      assert forall i :: 0 <= i < |queue| ==> EntryInv(s, s.pods[p].ticker.kind, queue[i]);
    }
  }

  lemma {:induction false} BoundedAlways(c: Config, start: Time, run: seq<Timed>, id: TaskId)
    requires id in Exec(c, Start(c, start), run).rows
    ensures Bounded(c, Exec(c, Start(c, start), run), id)
    decreases |run|
  {
    if run != [] {
      var s := Exec(c, Start(c, start), run[..|run| - 1]);
      InvAlways(c, start, run[..|run| - 1]);
      if id in s.rows {
        BoundedAlways(c, start, run[..|run| - 1], id);
      }
      StepKeepsBounded(c, s, run[|run| - 1], id);
    }
  }

  /**
   However many times locks expire, pods crash or listings go stale, a oneshot row with a
   limit runs at most that limit plus once per pod.
   */
  lemma {:induction false} BoundedReexecution(c: Config, start: Time, run: seq<Timed>, id: TaskId)
    requires var s := Exec(c, Start(c, start), run); Plain(c, s, id) && s.rows[id].kind == Oneshot && s.rows[id].maxRuns.Some?
    ensures var s := Exec(c, Start(c, start), run); s.rows[id].runCount <= Limit(s.rows[id]) + |c.pods|
  {
    BoundedAlways(c, start, run, id);
  }

  // ---------- rows that may never run ----------

  /** A limit of zero or less: on nobody's list, locked by nobody, never run. */
  predicate Untouched(s: State, id: TaskId) {
    id in s.rows && id in s.past && Waiting(s, id) == {} && s.rows[id].runCount == 0 && s.rows[id].owner.None? && s.past[id].acquisitions == 0
  }

  lemma StepKeepsUntouched(c: Config, s: State, te: Timed, id: TaskId)
    requires Inv(c, s) && Plain(c, s, id) && Untouched(s, id) && id in Step(c, s, te).rows
    requires s.rows[id].kind == Oneshot && s.rows[id].maxRuns.Some? && s.rows[id].maxRuns.value <= 0
    ensures Untouched(Step(c, s, te), id)
  {
    RowStep(c, s, te, id);
    WaitingStep(c, s, te, id);
    if te.event.Acquire? && Step(c, s, te) != s {
      WaitingAfterLock(c, s, te);
    }
    OtherAcquisitions(c, s, te, id);
  }

  lemma NewRowIsUntouched(c: Config, s: State, te: Timed, id: TaskId)
    requires Inv(c, s) && id !in s.rows && Plain(c, Step(c, s, te), id)
    ensures Untouched(Step(c, s, te), id)
  {
    NewRowIsIdle(c, s, te, id);
    NewKeyIsFree(c, s, te, id);
  }

  /** Without a permitted run there is none: such a row is never queued, locked or recorded. */
  lemma {:induction false} NoRunsWithoutPermission(c: Config, start: Time, run: seq<Timed>, id: TaskId)
    requires var s := Exec(c, Start(c, start), run);
      Plain(c, s, id) && s.rows[id].kind == Oneshot && s.rows[id].maxRuns.Some? && s.rows[id].maxRuns.value <= 0
    ensures Untouched(Exec(c, Start(c, start), run), id)
    decreases |run|
  {
    if run != [] {
      var last := |run| - 1;
      var s := Exec(c, Start(c, start), run[..last]);
      InvAlways(c, start, run[..last]);
      if id in s.rows {
        RowStep(c, s, run[last], id);
        InvAlways(c, start, run);
        NoRunsWithoutPermission(c, start, run[..last], id);
        StepKeepsUntouched(c, s, run[last], id);
      } else {
        NewRowIsUntouched(c, s, run[last], id);
      }
    }
  }

  // ---------- the soft cap ----------

  /** Pods that passed the cluster count for this handler and have not tried the lock yet. */
  function Ready(s: State, name: Name): set<PodId> {
    set p | p in s.pods && s.pods[p].ticker.stage == Cleared && s.pods[p].ticker.queue != [] &&
            s.pods[p].ticker.kind == Oneshot && s.pods[p].ticker.queue[0].name == name
  }

  /** The live rows that only a tick can have locked. */
  function CountedIds(c: Config, rows: Table, name: Name, now: Time): set<TaskId> {
    set id | id in LiveIds(rows, name, now) && !KeyOfSchedule(c, rows[id])
  }

  predicate CapInv(c: Config, s: State, name: Name) {
    name in c.caps && c.caps[name] >= 1 ==>
      && |CountedIds(c, s.rows, name, s.now)| + |Ready(s, name)| <= c.caps[name] + |c.pods| - 1
  }

  /** Rows that count only if they did before, under the same lock. */
  lemma CountShrinks(c: Config, rows: Table, next: Table, name: Name, now: Time, later: Time)
    requires now <= later
    requires forall id :: id in next && Counts(c, next[id], name) ==>
      id in rows && Counts(c, rows[id], name) && rows[id].expireAt == next[id].expireAt
    ensures CountedIds(c, next, name, later) <= CountedIds(c, rows, name, now)
    ensures |CountedIds(c, next, name, later)| <= |CountedIds(c, rows, name, now)|
  {
    forall id | id in CountedIds(c, next, name, later) ensures id in CountedIds(c, rows, name, now) {
      assert Counts(c, next[id], name);
    }
    SubsetSize(CountedIds(c, next, name, later), CountedIds(c, rows, name, now));
  }

  predicate Counts(c: Config, row: Row, name: Name) {
    row.kind == Oneshot && row.name == name && row.status == Running && row.expireAt.Some? && !KeyOfSchedule(c, row)
  }

  lemma ReadyStep(c: Config, s: State, te: Timed, name: Name)
    requires Inv(c, s)
    ensures var n := Step(c, s, te);
      Ready(n, name) <= Ready(s, name) ||
      (n != s && te.event.CountRunning? && s.pods[te.event.pod].ticker.queue[0].name == name &&
       |LiveIds(s.rows, name, te.at)| < c.caps[name])
  {
    if !MovesTicker(te.event) {
      ReadyKept(c, s, te, name);
    } else if !te.event.CountRunning? {
      NotCleared(c, s, te, name);
    }
  }

  lemma NotCleared(c: Config, s: State, te: Timed, name: Name)
    requires MovesTicker(te.event) && !te.event.CountRunning?
    ensures Ready(Step(c, s, te), name) <= Ready(s, name)
  {
  }

  lemma ReadyKept(c: Config, s: State, te: Timed, name: Name)
    requires !MovesTicker(te.event)
    ensures Ready(Step(c, s, te), name) <= Ready(s, name)
  {
    forall p | p in s.pods ensures Step(c, s, te).pods.Keys == s.pods.Keys && Step(c, s, te).pods[p].ticker == s.pods[p].ticker {
      TickersKept(c, s, te, p);
    }
  }

  lemma ReadyAfterLock(c: Config, s: State, te: Timed, name: Name)
    requires te.event.Acquire? && Step(c, s, te) != s
    ensures Ready(Step(c, s, te), name) <= Ready(s, name) - {te.event.pod}
  {
  }

  lemma CountStays(c: Config, s: State, te: Timed, id: TaskId, name: Name)
    requires Inv(c, s) && id in Step(c, s, te).rows && Counts(c, Step(c, s, te).rows[id], name)
    ensures var n := Step(c, s, te);
      (id in s.rows && Counts(c, s.rows[id], name) && s.rows[id].expireAt == n.rows[id].expireAt) ||
      (n != s && te.event.Acquire? && s.pods[te.event.pod].ticker.queue[0].id == id &&
       s.pods[te.event.pod].ticker.queue[0].name == name && s.pods[te.event.pod].ticker.kind == Oneshot)
  {
    if id in s.rows {
      RowStep(c, s, te, id);
      if te.event.Acquire? && te.event.pod in s.pods && s.pods[te.event.pod].ticker.queue != [] {
        assert TickerInv(c, s, te.event.pod);
        assert EntryInv(s, s.pods[te.event.pod].ticker.kind, s.pods[te.event.pod].ticker.queue[0]);
      }
    } else {
      NewKeyIsFree(c, s, te, id);
    }
  }

  lemma StepKeepsCap(c: Config, s: State, te: Timed, name: Name)
    requires Inv(c, s) && CapInv(c, s, name)
    ensures CapInv(c, Step(c, s, te), name)
  {
    var n := Step(c, s, te);
    if name in c.caps && c.caps[name] >= 1 && n != s {
      forall id | id in n.rows && Counts(c, n.rows[id], name)
        ensures (id in s.rows && Counts(c, s.rows[id], name) && s.rows[id].expireAt == n.rows[id].expireAt) ||
                (te.event.Acquire? && s.pods[te.event.pod].ticker.queue[0].id == id &&
                 s.pods[te.event.pod].ticker.queue[0].name == name && s.pods[te.event.pod].ticker.kind == Oneshot)
      {
        CountStays(c, s, te, id, name);
      }
      ReadyStep(c, s, te, name);
      if te.event.Acquire? && te.event.pod in Ready(s, name) {
        LockedStep(c, s, te, name);
      } else if te.event.CountRunning? {
        CountedStep(c, s, te, name);
      } else {
        SubsetSize(Ready(n, name), Ready(s, name));
        CountShrinks(c, s.rows, n.rows, name, s.now, n.now);
      }
    }
  }

  /** A pod is let past the count only while there is room. */
  lemma CountedStep(c: Config, s: State, te: Timed, name: Name)
    requires Inv(c, s) && CapInv(c, s, name) && name in c.caps && c.caps[name] >= 1
    requires Step(c, s, te) != s && te.event.CountRunning?
    ensures CapInv(c, Step(c, s, te), name)
  {
    var n := Step(c, s, te);
    ReadyStep(c, s, te, name);
    TableUntouched(c, s, te);
    StepKeepsInv(c, s, te);
    SubsetSize(Ready(n, name), c.pods);
    CountShrinks(c, s.rows, n.rows, name, s.now, n.now);
    RowsCounted(c, n.rows, name, n.now);
    if Ready(n, name) <= Ready(s, name) {
      SubsetSize(Ready(n, name), Ready(s, name));
    }
  }

  /** Trying the lock turns a ready pod into at most one live row. */
  lemma LockedStep(c: Config, s: State, te: Timed, name: Name)
    requires Inv(c, s) && CapInv(c, s, name) && name in c.caps && c.caps[name] >= 1
    requires Step(c, s, te) != s && te.event.Acquire? && te.event.pod in Ready(s, name)
    ensures CapInv(c, Step(c, s, te), name)
  {
    var n := Step(c, s, te);
    var id := s.pods[te.event.pod].ticker.queue[0].id;
    ReadyAfterLock(c, s, te, name);
    SubsetSize(Ready(n, name), Ready(s, name) - {te.event.pod});
    forall x | x in CountedIds(c, n.rows, name, n.now) && x != id ensures x in CountedIds(c, s.rows, name, s.now) {
      CountStays(c, s, te, x, name);
    }
    SubsetSize(CountedIds(c, n.rows, name, n.now), CountedIds(c, s.rows, name, s.now) + {id});
  }

  lemma {:induction false} CapAlways(c: Config, start: Time, run: seq<Timed>, name: Name)
    ensures CapInv(c, Exec(c, Start(c, start), run), name)
    decreases |run|
  {
    if run != [] {
      InvAlways(c, start, run[..|run| - 1]);
      CapAlways(c, start, run[..|run| - 1], name);
      StepKeepsCap(c, Exec(c, Start(c, start), run[..|run| - 1]), run[|run| - 1], name);
    } else {
      assert CountedIds(c, map[], name, start) == {};
      assert Ready(Start(c, start), name) == {};
      assert |c.pods| >= 0;
    }
  }

  // ---------- the local cap ----------

  predicate LocalCapInv(c: Config, s: State, name: Name) {
    name in c.caps ==> forall p :: p in s.pods ==> |LocalIds(s.pods[p], name)| <= c.caps[name]
  }

  lemma StepKeepsLocalCap(c: Config, s: State, te: Timed, name: Name)
    requires Inv(c, s) && LocalCapInv(c, s, name)
    ensures LocalCapInv(c, Step(c, s, te), name)
  {
    var n := Step(c, s, te);
    SamePods(c, s, te);
    if name in c.caps {
      forall p | p in n.pods ensures |LocalIds(n.pods[p], name)| <= c.caps[name] {
        LocalStep(c, s, te, p, name);
      }
    }
  }

  lemma LocalStep(c: Config, s: State, te: Timed, p: PodId, name: Name)
    requires Inv(c, s) && p in s.pods && name in c.caps && |LocalIds(s.pods[p], name)| <= c.caps[name]
    ensures var n := Step(c, s, te); p in n.pods && |LocalIds(n.pods[p], name)| <= c.caps[name]
  {
    var n := Step(c, s, te);
    if n != s && te.event.Acquire? && te.event.pod == p {
      assert TickerInv(c, s, p);
      var head := s.pods[p].ticker.queue[0];
      SubsetSize(LocalIds(n.pods[p], name), LocalIds(s.pods[p], name) + {head.id});
      if head.name != name || s.pods[p].ticker.kind != Oneshot {
        assert LocalIds(n.pods[p], name) <= LocalIds(s.pods[p], name);
        SubsetSize(LocalIds(n.pods[p], name), LocalIds(s.pods[p], name));
      }
    } else {
      PodStep(c, s, te, p);
      LocalIdsShrink(s.pods[p], n.pods[p], name);
    }
  }

  lemma {:induction false} LocalCapAlways(c: Config, start: Time, run: seq<Timed>, name: Name)
    ensures LocalCapInv(c, Exec(c, Start(c, start), run), name)
    decreases |run|
  {
    if run != [] {
      InvAlways(c, start, run[..|run| - 1]);
      LocalCapAlways(c, start, run[..|run| - 1], name);
      StepKeepsLocalCap(c, Exec(c, Start(c, start), run[..|run| - 1]), run[|run| - 1], name);
    } else {
      assert LocalIds(IDLE, name) == {};
    }
  }

  /** All live rows but the one that a schedule may have locked. */
  lemma RowsCounted(c: Config, rows: Table, name: Name, t: Time)
    ensures |CountedIds(c, rows, name, t)| <= |LiveIds(rows, name, t)|
    ensures UniqueKeys(rows) ==> |LiveIds(rows, name, t)| <= |CountedIds(c, rows, name, t)| + if name in c.scheduled then 1 else 0
  {
    SubsetSize(CountedIds(c, rows, name, t), LiveIds(rows, name, t));
    if UniqueKeys(rows) {
      if id :| id in LiveIds(rows, name, t) && KeyOfSchedule(c, rows[id]) {
        SubsetSize(LiveIds(rows, name, t), CountedIds(c, rows, name, t) + {id});
      } else {
        SubsetSize(LiveIds(rows, name, t), CountedIds(c, rows, name, t));
      }
    }
  }

  /**
   A handler with cap N on K pods never has more than N + K - 1 live rows, or N + K if it also
   has a schedule, now or at any later time before the next event; and never more than N runs
   in flight on one pod.
   */
  lemma {:induction false} SoftCap(c: Config, start: Time, run: seq<Timed>, name: Name, t: Time)
    requires name in c.caps && c.caps[name] >= 1 && t >= Exec(c, Start(c, start), run).now
    ensures var s := Exec(c, Start(c, start), run);
      |LiveIds(s.rows, name, t)| <= c.caps[name] + |c.pods| - (if name in c.scheduled then 0 else 1) &&
      forall p :: p in s.pods ==> |LocalIds(s.pods[p], name)| <= c.caps[name]
  {
    CapAlways(c, start, run, name);
    LocalCapAlways(c, start, run, name);
    UniqueKeysAlways(c, start, run);
    var s := Exec(c, Start(c, start), run);
    CountShrinks(c, s.rows, s.rows, name, s.now, t);
    RowsCounted(c, s.rows, name, t);
  }
}
