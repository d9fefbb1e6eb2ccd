/**
 The bound on the cap is met: for every cap N >= 1 and every set of K pods there is a run in
 which the handler has N + K - 1 live rows. All pods but one pass the cluster-wide count, each
 with a listing entry of its own, while nothing of the handler runs; the last pod then fills
 the cap; and the others try their locks without counting again. If the handler also has a
 schedule, this locks one more row, a submitted one that has the schedule's key.
 */
module CapLimit {
  import opened Wrappers
  import opened TaskRows
  import opened TaskProtocol
  import opened RerunLimit

  /** Every pod knows the handler, which has a cap. */
  predicate CappedEverywhere(c: Config, name: Name) {
    name in c.caps && c.caps[name] >= 1 && name !in c.cooldowns &&
    forall p :: p in c.pods ==> (p, name) in c.registered
  }

  /** Row ids are handed out in order. */
  ghost predicate IdsBelow(s: State, n: nat) {
    forall id: TaskId :: (id in s.rows <==> id < n) && (id in s.past <==> id < n)
  }

  predicate RowOf(row: Row, name: Name, timeout: int) {
    row.kind == Oneshot && row.name == name && row.timeout == Some(timeout) && row.maxRuns.None? && row.biz.None?
  }

  /** Running under a lock that lasts beyond the given time. */
  predicate LiveRow(row: Row, horizon: Time) {
    row.status == Running && row.expireAt.Some? && row.expireAt.value > horizon && row.owner.Some?
  }

  predicate FinishedRow(row: Row) {
    row.status == Success && row.owner.None? && row.expireAt.None?
  }

  predicate WaitingRow(row: Row) {
    row.status == Pending && row.owner.None? && row.expireAt.None?
  }

  /** All rows belong to the handler; those in `live` are live, the others have finished. */
  ghost predicate Rows(s: State, name: Name, timeout: int, n: nat, live: set<TaskId>, horizon: Time) {
    && IdsBelow(s, n) && live <= s.rows.Keys
    && forall id :: id in s.rows ==>
         RowOf(s.rows[id], name, timeout) && if id in live then LiveRow(s.rows[id], horizon) else FinishedRow(s.rows[id])
  }

  /** Like that, and one more row that waits. */
  ghost predicate OnePending(s: State, name: Name, timeout: int, n: nat, live: set<TaskId>, horizon: Time) {
    && IdsBelow(s, n + 1) && live <= s.rows.Keys && n !in live
    && forall id :: id in s.rows ==>
         RowOf(s.rows[id], name, timeout) &&
         if id == n then WaitingRow(s.rows[id]) else if id in live then LiveRow(s.rows[id], horizon) else FinishedRow(s.rows[id])
  }

  /** Past the count with an entry of a finished row. */
  ghost predicate Armed(s: State, p: PodId, name: Name, timeout: int, live: set<TaskId>) {
    p in s.pods &&
    var ticker := s.pods[p].ticker;
    ticker.kind == Oneshot && ticker.stage == Cleared && |ticker.queue| == 1 && s.pods[p].inFlight == map[] &&
    ticker.queue[0].id in s.rows && ticker.queue[0].id !in live && ticker.queue[0].name == name && ticker.queue[0].timeout == timeout
  }

  ghost predicate AllArmed(s: State, armed: set<PodId>, name: Name, timeout: int, live: set<TaskId>) {
    && (forall p :: p in armed ==> Armed(s, p, name, timeout, live))
    && (forall p, q :: p in armed && q in armed && p != q ==> s.pods[p].ticker.queue[0].id != s.pods[q].ticker.queue[0].id)
  }

  /** The pod that fills the cap: its tick is over, and it runs the live rows. */
  predicate Leads(s: State, lead: PodId, live: set<TaskId>) {
    lead in s.pods && s.pods[lead].ticker.queue == [] && s.pods[lead].inFlight.Keys == live
  }

  // ---------- one row: submitted, listed, cleared ----------

  function WithRow(s: State, id: TaskId, name: Name, timeout: int): State {
    s.(now := s.now + 1, rows := s.rows[id := NewRow(Oneshot, name, None, timeout, None, None, s.now + 1)],
       past := s.past[id := Past(Oneshot, name, 0, s.now + 1, {})])
  }

  lemma Submits(c: Config, s: State, id: TaskId, name: Name, timeout: int)
    requires id !in s.past && name !in c.cooldowns
    ensures Reaches(c, s, WithRow(s, id, name, timeout))
  {
    Here(c, s);
    Next(c, s, s, Timed(s.now + 1, SubmitOneshot(id, name, None, timeout, None)), WithRow(s, id, name, timeout));
  }

  /** The listing shows this one row. */
  ghost predicate OnlyListable(s: State, e: Entry, t: Time) {
    e.id in s.rows && e == EntryOf(e.id, s.rows[e.id]) && forall id :: id in s.rows ==> (Listable(s.rows[id], Oneshot, t) <==> id == e.id)
  }

  function Cleared3(s: State, p: PodId, e: Entry): State
    requires p in s.pods
  {
    SetTicker(s, p, Ticker(Oneshot, s.now + 1, [e], Cleared)).(now := s.now + 3)
  }

  lemma ListsOne(c: Config, s: State, p: PodId, e: Entry)
    requires p in s.pods && s.pods[p].ticker.queue == [] && OnlyListable(s, e, s.now + 1)
    ensures Reaches(c, s, SetTicker(s, p, Ticker(Oneshot, s.now + 1, [e], Fresh)).(now := s.now + 1))
  {
    Here(c, s);
    assert IsListing(s.rows, Oneshot, s.now + 1, [e]) by { assert [e][0].id == e.id; }
    ListStep(c, s, s.now + 1, p, Oneshot, [e]);
    Next(c, s, s, Timed(s.now + 1, List(p, Oneshot, [e])), SetTicker(s, p, Ticker(Oneshot, s.now + 1, [e], Fresh)).(now := s.now + 1));
  }

  lemma ListsAndClears(c: Config, s: State, p: PodId, e: Entry)
    requires p in s.pods && s.pods[p].ticker.queue == [] && OnlyListable(s, e, s.now + 1)
    requires (p, e.name) in c.registered && e.name in c.caps && e.id !in s.pods[p].inFlight
    requires |LocalIds(s.pods[p], e.name)| < c.caps[e.name] && |LiveIds(s.rows, e.name, s.now + 3)| < c.caps[e.name]
    ensures Reaches(c, s, Cleared3(s, p, e))
  {
    ListsOne(c, s, p, e);
    var l := SetTicker(s, p, Ticker(Oneshot, s.now + 1, [e], Fresh)).(now := s.now + 1);
    InspectStep(c, l, s.now + 2, p);
    var i := Advance(l, p, Inspected).(now := s.now + 2);
    assert LocalIds(l.pods[p], e.name) == LocalIds(s.pods[p], e.name);
    Next(c, s, l, Timed(s.now + 2, Inspect(p)), i);
    CountStep(c, i, s.now + 3, p);
    var n := Advance(i, p, Cleared).(now := s.now + 3);
    Next(c, s, i, Timed(s.now + 3, CountRunning(p)), n);
    assert l.pods[p := i.pods[p]] == s.pods[p := i.pods[p]] && i.pods[p := n.pods[p]] == s.pods[p := n.pods[p]];
  }

  /** Whoever is cleared takes the lock. */
  lemma LocksCleared(c: Config, s: State, p: PodId, e: Entry)
    requires p in s.pods && s.pods[p].ticker.queue == [e] && s.pods[p].ticker.stage == Cleared && s.pods[p].ticker.kind == Oneshot
    requires e.id in s.rows && e.id in s.past && LockFree(s.rows[e.id], s.now + 1)
    ensures Reaches(c, s, AfterAcquire(s, s.now + 1, p).(now := s.now + 1))
  {
    Here(c, s);
    AcquireStep(c, s, s.now + 1, p);
    Next(c, s, s, Timed(s.now + 1, Acquire(p)), AfterAcquire(s, s.now + 1, p).(now := s.now + 1));
  }

  // ---------- a row is run to its end ----------

  predicate SameTask(a: Row, b: Row) {
    a.kind == b.kind && a.name == b.name && a.timeout == b.timeout && a.maxRuns == b.maxRuns && a.biz == b.biz
  }

  lemma RunsOff(c: Config, s: State, p: PodId, id: TaskId) returns (n: State)
    requires InFlight(s, p, id) && s.pods[p].inFlight[id].phase == Dispatched && s.pods[p].inFlight[id].kind == Oneshot
    requires OwnedBy(s.rows, id, p) && id in s.past
    ensures Reaches(c, s, n) && n.now >= s.now && n.past.Keys == s.past.Keys
    ensures id in n.rows && n.rows == s.rows[id := n.rows[id]] && FinishedRow(n.rows[id]) && SameTask(s.rows[id], n.rows[id])
    ensures Only(s, n, p) && n.pods[p] == s.pods[p].(inFlight := s.pods[p].inFlight - {id})
  {
    Here(c, s);
    var b := SetPhase(s, p, id, Executing(s.now + 1)).(now := s.now + 1);
    BeginStep(c, s, s.now + 1, p, id);
    Next(c, s, s, Timed(s.now + 1, Begin(p, id)), b);
    Finishes(c, b, p, id);
    var f := Finisher(b, p, id);
    Onwards(c, s, b, f);
    n := Leaves(c, f, p, id);
    Onwards(c, s, f, n);
    assert f.pods[p].inFlight - {id} == s.pods[p].inFlight - {id};
  }

  lemma Leaves(c: Config, s: State, p: PodId, id: TaskId) returns (n: State)
    requires InFlight(s, p, id) && s.pods[p].inFlight[id].phase == Deleting(true)
    ensures Reaches(c, s, n) && n == s.(now := s.now + 2, pods := s.pods[p := s.pods[p].(inFlight := s.pods[p].inFlight - {id})])
  {
    Here(c, s);
    var m := SetPhase(s, p, id, Done).(now := s.now + 1);
    var fails := c.retention.successSeconds == 0;
    DeleteStep(c, s, s.now + 1, p, id, fails);
    Next(c, s, s, Timed(s.now + 1, Delete(p, id, fails)), m);
    RetireStep(c, m, s.now + 2, p, id);
    n := m.(now := s.now + 2, pods := m.pods[p := m.pods[p].(inFlight := m.pods[p].inFlight - {id})]);
    Next(c, s, m, Timed(s.now + 2, Retire(p, id)), n);
    assert m.pods[p].inFlight - {id} == s.pods[p].inFlight - {id};
    assert s.pods[p := m.pods[p]][p := n.pods[p]] == s.pods[p := n.pods[p]];
  }

  // ---------- one more row, submitted, listed and locked ----------

  ghost predicate Only(s: State, m: State, p: PodId) {
    m.pods.Keys == s.pods.Keys && forall q :: q in s.pods && q != p ==> m.pods[q] == s.pods[q]
  }

  lemma Waits(c: Config, s: State, name: Name, timeout: int, n: nat, live: set<TaskId>, horizon: Time) returns (m: State)
    requires Rows(s, name, timeout, n, live, horizon) && timeout > 0 && name !in c.cooldowns
    ensures Reaches(c, s, m) && OnePending(m, name, timeout, n, live, horizon) && m.pods == s.pods && m.now == s.now + 1
  {
    Submits(c, s, n, name, timeout);
    m := WithRow(s, n, name, timeout);
  }

  lemma LiveOnly(s: State, name: Name, timeout: int, n: nat, live: set<TaskId>, horizon: Time, t: Time)
    requires OnePending(s, name, timeout, n, live, horizon) && t <= horizon
    ensures LiveIds(s.rows, name, t) <= live
  {
  }

  predicate Ready(s: State, p: PodId, e: Entry) {
    p in s.pods && s.pods[p].ticker.kind == Oneshot && s.pods[p].ticker.queue == [e] && s.pods[p].ticker.stage == Cleared
  }

  /** Under the cap, a pod whose tick is over gets past the count with the row that waits. */
  lemma Aims(c: Config, s: State, p: PodId, name: Name, timeout: int, n: nat, live: set<TaskId>, horizon: Time) returns (m: State)
    requires CappedEverywhere(c, name) && timeout > 0 && OnePending(s, name, timeout, n, live, horizon) && s.now + 3 <= horizon
    requires p in c.pods && p in s.pods && s.pods[p].ticker.queue == [] && s.pods[p].inFlight.Keys <= live && |live| < c.caps[name]
    ensures Reaches(c, s, m) && OnePending(m, name, timeout, n, live, horizon) && m.now == s.now + 3
    ensures Only(s, m, p) && Ready(m, p, Entry(n, name, timeout)) && m.pods[p].inFlight == s.pods[p].inFlight
  {
    LiveOnly(s, name, timeout, n, live, horizon, s.now + 3);
    SubsetSize(LiveIds(s.rows, name, s.now + 3), live);
    SubsetSize(LocalIds(s.pods[p], name), live);
    ListsAndClears(c, s, p, Entry(n, name, timeout));
    m := Cleared3(s, p, Entry(n, name, timeout));
  }

  lemma LocksIt(c: Config, s: State, p: PodId, name: Name, timeout: int, n: nat, live: set<TaskId>, horizon: Time) returns (m: State)
    requires OnePending(s, name, timeout, n, live, horizon) && Ready(s, p, Entry(n, name, timeout))
    requires s.now + (timeout + LOCK_TTL_BUFFER) * SECOND >= horizon
    ensures Reaches(c, s, m) && Rows(m, name, timeout, n + 1, live + {n}, horizon) && m.now == s.now + 1
    ensures InFlight(m, p, n) && m.pods[p].ticker.queue == [] && Only(s, m, p)
    ensures m.pods[p].inFlight == s.pods[p].inFlight[n := m.pods[p].inFlight[n]]
    ensures m.pods[p].inFlight[n].phase == Dispatched && m.pods[p].inFlight[n].kind == Oneshot && OwnedBy(m.rows, n, p)
  {
    LocksCleared(c, s, p, Entry(n, name, timeout));
    m := AfterAcquire(s, s.now + 1, p).(now := s.now + 1);
  }

  /** The lead gets past the count with the row that waits, and locks it. */
  lemma LeadLocks(c: Config, s: State, name: Name, timeout: int, n: nat, live: set<TaskId>, horizon: Time, lead: PodId) returns (m: State)
    requires CappedEverywhere(c, name) && timeout > 0 && OnePending(s, name, timeout, n, live, horizon)
    requires lead in c.pods && Leads(s, lead, live) && |live| < c.caps[name]
    requires s.now + 3 <= horizon <= s.now + 3 + (timeout + LOCK_TTL_BUFFER) * SECOND
    ensures Reaches(c, s, m) && Rows(m, name, timeout, n + 1, live + {n}, horizon) && Only(s, m, lead) && m.now == s.now + 4
    ensures Leads(m, lead, live + {n}) && OwnedBy(m.rows, n, lead)
    ensures m.pods[lead].inFlight[n].phase == Dispatched && m.pods[lead].inFlight[n].kind == Oneshot
  {
    var s1 := Aims(c, s, lead, name, timeout, n, live, horizon);
    m := LocksIt(c, s1, lead, name, timeout, n, live, horizon);
    Onwards(c, s, s1, m);
  }

  // ---------- the other pods take aim ----------

  lemma OffRows(s: State, m: State, name: Name, timeout: int, n: nat, horizon: Time)
    requires Rows(s, name, timeout, n + 1, {} + {n}, horizon) && n in m.rows && m.rows == s.rows[n := m.rows[n]]
    requires FinishedRow(m.rows[n]) && SameTask(s.rows[n], m.rows[n]) && m.past.Keys == s.past.Keys
    ensures Rows(m, name, timeout, n + 1, {}, m.now)
  {
  }

  /** The lead runs the row that waits to its end. */
  lemma LeadRuns(c: Config, s: State, name: Name, timeout: int, n: nat, lead: PodId) returns (m: State)
    requires CappedEverywhere(c, name) && timeout > 0 && OnePending(s, name, timeout, n, {}, s.now + 3)
    requires lead in c.pods && Leads(s, lead, {})
    ensures Reaches(c, s, m) && Leads(m, lead, {}) && Rows(m, name, timeout, n + 1, {}, m.now)
    ensures Only(s, m, lead)
  {
    var s1 := LeadLocks(c, s, name, timeout, n, {}, s.now + 3, lead);
    m := RunsOff(c, s1, lead, n);
    assert s1.pods[lead].inFlight - {n} == map[];
    OffRows(s1, m, name, timeout, n, s.now + 3);
    Onwards(c, s, s1, m);
  }

  ghost predicate AllIdle(s: State, pods: set<PodId>) {
    forall p :: p in pods ==> p in s.pods && s.pods[p] == IDLE
  }

  /** One more pod is past the count with an entry of its own. */
  lemma Arms(c: Config, s: State, name: Name, timeout: int, n: nat, lead: PodId, p: PodId) returns (m: State)
    requires CappedEverywhere(c, name) && timeout > 0 && s.pods.Keys == c.pods && Rows(s, name, timeout, n, {}, s.now)
    requires Leads(s, lead, {}) && p in s.pods && s.pods[p] == IDLE && lead != p
    ensures Reaches(c, s, m) && m.pods.Keys == c.pods && Leads(m, lead, {}) && Rows(m, name, timeout, n + 1, {}, m.now)
    ensures Armed(m, p, name, timeout, {}) && m.pods[p].ticker.queue[0].id == n
    ensures forall q :: q in s.pods && q != p && q != lead ==> m.pods[q] == s.pods[q]
  {
    var horizon := s.now + 7;
    var s1 := Waits(c, s, name, timeout, n, {}, horizon);
    var s2 := Aims(c, s1, p, name, timeout, n, {}, horizon);
    Onwards(c, s, s1, s2);
    m := LeadRuns(c, s2, name, timeout, n, lead);
    Onwards(c, s, s2, m);
  }

  /** Some pods have taken aim, and the others are idle. */
  ghost predicate Arming(c: Config, s: State, name: Name, timeout: int, n: nat, lead: PodId, armed: set<PodId>, pods: set<PodId>) {
    && s.pods.Keys == c.pods && Rows(s, name, timeout, n, {}, s.now) && Leads(s, lead, {})
    && AllArmed(s, armed, name, timeout, {}) && AllIdle(s, pods) && lead !in armed && lead !in pods && armed !! pods
  }

  lemma ArmsOneMore(c: Config, s: State, name: Name, timeout: int, n: nat, lead: PodId, armed: set<PodId>, pods: set<PodId>, p: PodId)
    returns (m: State)
    requires CappedEverywhere(c, name) && timeout > 0 && Arming(c, s, name, timeout, n, lead, armed, pods) && p in pods
    ensures Reaches(c, s, m) && Arming(c, m, name, timeout, n + 1, lead, armed + {p}, pods - {p})
  {
    m := Arms(c, s, name, timeout, n, lead, p);
    forall q | q in armed ensures q in s.pods {
      assert Armed(s, q, name, timeout, {});
    }
    ArmedStay(s, m, armed, p, name, timeout, n);
  }

  /** All pods but the lead, one after the other. */
  lemma {:induction false} AllArm(c: Config, s: State, name: Name, timeout: int, n: nat, lead: PodId, armed: set<PodId>, pods: set<PodId>)
    returns (m: State, last: nat, all: set<PodId>)
    requires CappedEverywhere(c, name) && timeout > 0 && Arming(c, s, name, timeout, n, lead, armed, pods)
    ensures Reaches(c, s, m) && Arming(c, m, name, timeout, last, lead, all, {}) && |all| == |armed| + |pods|
    decreases |pods|
  {
    if pods == {} {
      Here(c, s);
      m, last, all := s, n, armed;
    } else {
      var p :| p in pods;
      var s1 := ArmsOneMore(c, s, name, timeout, n, lead, armed, pods, p);
      m, last, all := AllArm(c, s1, name, timeout, n + 1, lead, armed + {p}, pods - {p});
      Onwards(c, s, s1, m);
    }
  }

  lemma ArmedStay(s: State, m: State, armed: set<PodId>, p: PodId, name: Name, timeout: int, n: nat)
    requires AllArmed(s, armed, name, timeout, {}) && p !in armed && IdsBelow(s, n) && IdsBelow(m, n + 1)
    requires Armed(m, p, name, timeout, {}) && m.pods[p].ticker.queue[0].id == n
    requires forall q :: q in armed ==> q in m.pods && m.pods[q] == s.pods[q]
    ensures AllArmed(m, armed + {p}, name, timeout, {})
  {
    forall q | q in armed ensures Armed(m, q, name, timeout, {}) && m.pods[q].ticker.queue[0].id < n {
      assert Armed(s, q, name, timeout, {});
    }
  }

  // ---------- the lead fills the cap ----------

  lemma Fills(c: Config, s: State, name: Name, timeout: int, n: nat, lead: PodId, live: set<TaskId>, horizon: Time) returns (m: State)
    requires CappedEverywhere(c, name) && timeout > 0 && Rows(s, name, timeout, n, live, horizon) && Leads(s, lead, live) && lead in c.pods
    requires |live| < c.caps[name] && s.now + 5 <= horizon <= s.now + (timeout + LOCK_TTL_BUFFER) * SECOND
    ensures Reaches(c, s, m) && Rows(m, name, timeout, n + 1, live + {n}, horizon) && Leads(m, lead, live + {n}) && m.now == s.now + 5
    ensures Only(s, m, lead)
  {
    var s1 := Waits(c, s, name, timeout, n, live, horizon);
    m := LeadLocks(c, s1, name, timeout, n, live, horizon, lead);
    Onwards(c, s, s1, m);
  }

  lemma {:induction false} FillsUp(c: Config, s: State, name: Name, timeout: int, n: nat, lead: PodId, live: set<TaskId>, horizon: Time, more: nat)
    returns (m: State, full: set<TaskId>)
    requires CappedEverywhere(c, name) && timeout > 0 && Rows(s, name, timeout, n, live, horizon) && Leads(s, lead, live) && lead in c.pods
    requires |live| + more <= c.caps[name] && s.now + 5 * more <= horizon <= s.now + (timeout + LOCK_TTL_BUFFER) * SECOND
    ensures Reaches(c, s, m) && Rows(m, name, timeout, n + more, full, horizon) && |full| == |live| + more && m.now == s.now + 5 * more
    ensures Only(s, m, lead)
    ensures forall id :: id in full ==> id in live || id >= n
    decreases more
  {
    Here(c, s);
    m, full := s, live;
    if more > 0 {
      var s1 := Fills(c, s, name, timeout, n, lead, live, horizon);
      m, full := FillsUp(c, s1, name, timeout, n + 1, lead, live + {n}, horizon, more - 1);
      Onwards(c, s, s1, m);
    }
  }

  // ---------- the others lock without another count ----------

  lemma Shoots(c: Config, s: State, name: Name, timeout: int, n: nat, live: set<TaskId>, horizon: Time, p: PodId, armed: set<PodId>)
    returns (m: State, id: TaskId)
    requires Rows(s, name, timeout, n, live, horizon) && AllArmed(s, armed, name, timeout, live) && p in armed
    requires horizon <= s.now + (timeout + LOCK_TTL_BUFFER) * SECOND
    ensures Reaches(c, s, m) && id !in live && Rows(m, name, timeout, n, live + {id}, horizon) && m.now == s.now + 1
    ensures m.pods.Keys == s.pods.Keys
    ensures AllArmed(m, armed - {p}, name, timeout, live + {id})
  {
    assert Armed(s, p, name, timeout, live);
    id := s.pods[p].ticker.queue[0].id;
    LocksCleared(c, s, p, s.pods[p].ticker.queue[0]);
    m := AfterAcquire(s, s.now + 1, p).(now := s.now + 1);
  }

  lemma {:induction false} AllShoot(c: Config, s: State, name: Name, timeout: int, n: nat, live: set<TaskId>, horizon: Time, armed: set<PodId>)
    returns (m: State, all: set<TaskId>)
    requires Rows(s, name, timeout, n, live, horizon) && AllArmed(s, armed, name, timeout, live)
    requires s.now + |armed| <= horizon <= s.now + (timeout + LOCK_TTL_BUFFER) * SECOND
    ensures Reaches(c, s, m) && Rows(m, name, timeout, n, all, horizon) && |all| == |live| + |armed| && m.now == s.now + |armed|
    ensures m.pods.Keys == s.pods.Keys
    decreases |armed|
  {
    Here(c, s);
    m, all := s, live;
    if p :| p in armed {
      var s1, id := Shoots(c, s, name, timeout, n, live, horizon, p, armed);
      assert |live + {id}| == |live| + 1 && |armed - {p}| == |armed| - 1;
      m, all := AllShoot(c, s1, name, timeout, n, live + {id}, horizon, armed - {p});
      Onwards(c, s, s1, m);
    }
  }

  lemma StillArmed(s: State, m: State, armed: set<PodId>, name: Name, timeout: int, n: nat, live: set<TaskId>)
    requires AllArmed(s, armed, name, timeout, {}) && IdsBelow(s, n) && (forall id :: id in live ==> id >= n)
    requires s.rows.Keys <= m.rows.Keys && forall p :: p in armed ==> p in m.pods && m.pods[p] == s.pods[p]
    ensures AllArmed(m, armed, name, timeout, live)
  {
    forall p | p in armed ensures Armed(m, p, name, timeout, live) {
      assert Armed(s, p, name, timeout, {});
    }
  }

  lemma FillAndShoot(c: Config, s: State, name: Name, timeout: int, n: nat, lead: PodId, armed: set<PodId>)
    returns (m: State, last: nat, all: set<TaskId>)
    requires CappedEverywhere(c, name) && Arming(c, s, name, timeout, n, lead, armed, {}) && lead in c.pods
    requires timeout >= 5 * c.caps[name] + |armed| + 3
    ensures Reaches(c, s, m) && Rows(m, name, timeout, last, all, m.now + 3) && |all| == c.caps[name] + |armed| && lead in m.pods
  {
    var horizon := s.now + 5 * c.caps[name] + |armed| + 3;
    var s1, full := FillsUp(c, s, name, timeout, n, lead, {}, horizon, c.caps[name]);
    StillArmed(s, s1, armed, name, timeout, n, full);
    last := n + c.caps[name];
    m, all := AllShoot(c, s1, name, timeout, last, full, horizon, armed);
    Onwards(c, s, s1, m);
  }

  // ---------- the schedule adds its own row ----------

  /** The row that has the schedule's key, submitted while the pod starts anew. */
  lemma KeySubmitted(c: Config, s: State, name: Name, timeout: int, n: nat, live: set<TaskId>, horizon: Time, p: PodId) returns (m: State)
    requires Rows(s, name, timeout, n, live, horizon) && p in s.pods && name !in c.cooldowns
    ensures Reaches(c, s, m) && m.now == s.now + 2 && p in m.pods && m.pods[p] == IDLE && n in m.past && n !in s.rows
    ensures m.rows == s.rows[n := NewRow(Oneshot, name, Some(SCHEDULED_BIZ_NAME), timeout, None, None, m.now)]
  {
    Here(c, s);
    var idle := s.(now := s.now + 1, pods := s.pods[p := IDLE]);
    Next(c, s, s, Timed(s.now + 1, Crash(p)), idle);
    var e := SubmitOneshot(n, name, Some(SCHEDULED_BIZ_NAME), timeout, None);
    assert !Taken(idle.rows, name, Some(SCHEDULED_BIZ_NAME));
    m := Step(c, idle, Timed(s.now + 2, e));
    Next(c, s, idle, Timed(s.now + 2, e), m);
  }

  /** The schedule locks that row without a look at the cap. */
  lemma ScheduleAdds(c: Config, s: State, name: Name, timeout: int, n: nat, live: set<TaskId>, p: PodId) returns (m: State)
    requires Rows(s, name, timeout, n, live, s.now + 3) && p in s.pods && name !in c.cooldowns && name in c.scheduled
    ensures Reaches(c, s, m) && n !in live && LiveIds(m.rows, name, m.now) == live + {n}
  {
    var k := KeySubmitted(c, s, name, timeout, n, live, s.now + 3, p);
    assert ScheduledFor(k.rows[n], name);
    CronStepped(c, k, s.now + 3, p, name, Lock(n, 1));
    m := AfterCron(k, s.now + 3, p, name, Lock(n, 1)).(now := s.now + 3);
    Next(c, s, k, Timed(s.now + 3, Cron(p, name, Lock(n, 1))), m);
    assert m.rows == k.rows[n := Locked(k.rows[n], p, m.now, 1)];
  }

  /** N + K - 1 rows of the handler are live, and will be for a while. */
  lemma {:induction false} FullHouse(c: Config, start: Time, name: Name, timeout: int)
    returns (m: State, last: nat, all: set<TaskId>, lead: PodId)
    requires CappedEverywhere(c, name) && c.pods != {} && timeout == 5 * c.caps[name] + |c.pods| + 3
    ensures Reaches(c, Start(c, start), m) && Rows(m, name, timeout, last, all, m.now + 3) && lead in m.pods
    ensures |all| == c.caps[name] + |c.pods| - 1
  {
    lead :| lead in c.pods;
    var s := Start(c, start);
    var s1, n, armed := AllArm(c, s, name, timeout, 0, lead, {}, c.pods - {lead});
    m, last, all := FillAndShoot(c, s1, name, timeout, n, lead, armed);
    Onwards(c, s, s1, m);
  }

  /** With the cap N >= 1 and K pods, some run has N + K - 1 live rows of the handler, or N + K if it also has a schedule: the bound cannot be lowered. */
  lemma {:induction false} SoftCapIsReached(c: Config, start: Time, name: Name)
    requires CappedEverywhere(c, name) && c.pods != {}
    ensures exists run ::
      (var s := Exec(c, Start(c, start), run);
       |LiveIds(s.rows, name, s.now)| == c.caps[name] + |c.pods| - if name in c.scheduled then 0 else 1)
  {
    var s, n, all, lead := FullHouse(c, start, name, 5 * c.caps[name] + |c.pods| + 3);
    if name in c.scheduled {
      var m := ScheduleAdds(c, s, name, 5 * c.caps[name] + |c.pods| + 3, n, all, lead);
      Onwards(c, Start(c, start), s, m);
      var run :| m == Exec(c, Start(c, start), run);
    } else {
      assert LiveIds(s.rows, name, s.now) == all;
      var run :| s == Exec(c, Start(c, start), run);
    }
  }
}
