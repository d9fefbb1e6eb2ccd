/**
 The `task` table of the SQL store: one row per oneshot submission, one long-lived row
 per triggered identity and per scheduled handler. Each function is the effect of one SQL transaction, written on
 values so that the protocol can reason about it; the class in SqlTaskStore.dfy performs
 the same transactions in place.

 A SQL NULL is `None`; a comparison with NULL is never true.
 */
module TaskRows {
  import opened Wrappers

  type TaskId = nat    // uuid4().hex read as a number: hexadecimal order is numeric order
  type PodId = nat
  type Name = string
  type Time = int      // microseconds, the resolution of datetime

  const SECOND: int := 1_000_000
  const LOCK_TTL_BUFFER: int := 60
  const DEFAULT_TIMEOUT: int := 30
  const SCHEDULED_BIZ_NAME: Name := "__scheduled__"

  datatype TaskType = Scheduled | Oneshot | Triggered

  datatype Status = Pending | Running | Success | Failed

  datatype Failure = Failure(message: string, at: Time, attempt: int)

  datatype Row = Row(
    kind: TaskType, name: Name, biz: Option<Name>, createdAt: Time, status: Status,
    owner: Option<PodId>, lockedAt: Option<Time>, expireAt: Option<Time>,
    runAt: Option<Time>, requestAt: Option<Time>,
    runCount: nat, maxRuns: Option<int>, timeout: Option<int>, failure: Option<Failure>)

  type Table = map<TaskId, Row>

  /** What one call of the executor hands back to the runner. */
  datatype Outcome = Outcome(ok: bool, startedAt: Time, error: string, attempts: int)

  /** One row of a listing: the id, the handler name and the effective timeout. */
  datatype Entry = Entry(id: TaskId, name: Name, timeout: int)

  datatype Retention = Retention(successSeconds: nat, failureSeconds: nat)

  // ---------- locks ----------

  /** The lock can be taken: no owner, or an expiry that is missing or has passed. */
  predicate LockFree(row: Row, now: Time) {
    row.owner.None? || row.expireAt.None? || row.expireAt.value <= now
  }

  function Locked(row: Row, pod: PodId, now: Time, ttl: int): Row {
    row.(owner := Some(pod), lockedAt := Some(now), expireAt := Some(now + ttl * SECOND), status := Running)
  }

  function AcquireLock(rows: Table, id: TaskId, pod: PodId, now: Time, ttl: int): (Table, bool) {
    if id in rows && LockFree(rows[id], now) then (rows[id := Locked(rows[id], pod, now, ttl)], true) else (rows, false)
  }

  predicate OwnedBy(rows: Table, id: TaskId, pod: PodId) {
    id in rows && rows[id].owner == Some(pod)
  }

  function Unlocked(row: Row): Row {
    row.(owner := None, lockedAt := None, expireAt := None)
  }

  function ReleaseLock(rows: Table, id: TaskId, pod: PodId): Table {
    if OwnedBy(rows, id, pod) then rows[id := Unlocked(rows[id])] else rows
  }

  // ---------- results ----------

  function Recorded(row: Row, outcome: Outcome): Row {
    row.(runAt := Some(outcome.startedAt), runCount := row.runCount + 1,
         failure := if outcome.ok then None else Some(Failure(outcome.error, outcome.startedAt, outcome.attempts)),
         status := if outcome.ok then Success else Failed)
  }

  function RecordOutcome(rows: Table, id: TaskId, pod: PodId, outcome: Outcome): Table {
    if OwnedBy(rows, id, pod) then rows[id := Recorded(rows[id], outcome)] else rows
  }

  /** Immediate deletion after a run: a retention of zero seconds for that outcome. */
  predicate DeletesAtOnce(retention: Retention, ok: bool) {
    if ok then retention.successSeconds == 0 else retention.failureSeconds == 0
  }

  predicate Expired(row: Row, retention: Retention, now: Time) {
    row.kind == Oneshot && row.owner.None? && row.runAt.Some? &&
    ((row.status == Success && retention.successSeconds > 0 && row.runAt.value <= now - retention.successSeconds * SECOND) ||
     (row.status == Failed && retention.failureSeconds > 0 && row.runAt.value <= now - retention.failureSeconds * SECOND))
  }

  function Cleaned(rows: Table, retention: Retention, now: Time): Table {
    map id | id in rows && !Expired(rows[id], retention, now) :: rows[id]
  }

  // ---------- submissions ----------

  /** The unique key (task_name, biz_name); rows without a biz_name never collide. */
  predicate Taken(rows: Table, name: Name, biz: Option<Name>) {
    biz.Some? && exists id :: id in rows && rows[id].name == name && rows[id].biz == biz
  }

  /** The unique index over (task_name, biz_name). */
  predicate UniqueKeys(rows: Table) {
    forall a, b :: a in rows && b in rows && a != b && rows[a].biz.Some? ==> !(rows[a].name == rows[b].name && rows[a].biz == rows[b].biz)
  }

  function NewRow(kind: TaskType, name: Name, biz: Option<Name>, timeout: int, maxRuns: Option<int>,
                  requestAt: Option<Time>, now: Time): Row
  {
    Row(kind, name, biz, now, Pending, None, None, None, None, requestAt, 0, maxRuns, Some(timeout), None)
  }

  /** The earliest start a submission asks for: now, or the end of the cooldown after the last run. */
  function RequestTime(row: Row, now: Time, cooldown: nat): Time {
    if cooldown != 0 && row.runAt.Some? && now < row.runAt.value + cooldown * SECOND
    then row.runAt.value + cooldown * SECOND
    else now
  }

  /** A submission to an existing triggered row: status, lock and run_at stay as they are. */
  function Resubmitted(row: Row, timeout: int, maxRuns: Option<int>, now: Time, cooldown: nat): Row {
    row.(requestAt := Some(RequestTime(row, now, cooldown)), runCount := 0, failure := None,
         timeout := Some(timeout), maxRuns := maxRuns)
  }

  // ---------- scheduled handlers ----------

  predicate ScheduledFor(row: Row, name: Name) {
    row.name == name && row.biz == Some(SCHEDULED_BIZ_NAME)
  }

  /** The row that acquire_lock inserts: locked from the start. */
  function ScheduledRow(name: Name, pod: PodId, now: Time, ttl: int): Row {
    Row(Scheduled, name, Some(SCHEDULED_BIZ_NAME), now, Running, Some(pod), Some(now), Some(now + ttl * SECOND),
        None, None, 0, None, None, None)
  }

  /** acquire_lock, where `id` is the row that has the handler's key, or the id of the row to insert. */
  function AcquireByName(rows: Table, id: TaskId, name: Name, pod: PodId, now: Time, ttl: int): (Table, bool) {
    if id in rows then AcquireLock(rows, id, pod, now, ttl) else (rows[id := ScheduledRow(name, pod, now, ttl)], true)
  }

  /** `WHERE task_name = ? AND owner = ?`: neither the key nor the type of the row is asked for. */
  predicate OwnedByName(row: Row, name: Name, pod: PodId) {
    row.name == name && row.owner == Some(pod)
  }

  function RecordByName(rows: Table, name: Name, pod: PodId, outcome: Outcome): Table {
    map id | id in rows :: if OwnedByName(rows[id], name, pod) then Recorded(rows[id], outcome) else rows[id]
  }

  function ReleaseByName(rows: Table, name: Name, pod: PodId): Table {
    map id | id in rows :: if OwnedByName(rows[id], name, pod) then Unlocked(rows[id]) else rows[id]
  }

  // ---------- listings ----------

  /** Asked for and not yet run since: the last recorded start is before the request. */
  predicate Dirty(row: Row) {
    row.requestAt.Some? && (row.runAt.None? || row.runAt.value < row.requestAt.value)
  }

  predicate Listable(row: Row, kind: TaskType, now: Time) {
    row.kind == kind &&
    match kind
    case Scheduled => false
    case Oneshot =>
      (row.status == Pending || (row.status == Running && row.expireAt.Some? && row.expireAt.value <= now)) &&
      (row.maxRuns.None? || row.runCount < row.maxRuns.value)
    case Triggered =>
      (row.status != Running || (row.expireAt.Some? && row.expireAt.value <= now)) &&
      row.requestAt.Some? && row.requestAt.value <= now && Dirty(row)
  }

  /** `timeout or 30`: a missing or zero timeout reads as the default. */
  function EntryOf(id: TaskId, row: Row): Entry {
    Entry(id, row.name, if row.timeout.None? || row.timeout.value == 0 then DEFAULT_TIMEOUT else row.timeout.value)
  }

  /** ORDER BY created_at ASC, id ASC. */
  predicate Before(rows: Table, a: TaskId, b: TaskId)
    requires a in rows && b in rows
  {
    rows[a].createdAt < rows[b].createdAt || (rows[a].createdAt == rows[b].createdAt && a < b)
  }

  predicate Selected(rows: Table, kind: TaskType, now: Time, entries: seq<Entry>) {
    forall i :: 0 <= i < |entries| ==>
      entries[i].id in rows && Listable(rows[entries[i].id], kind, now) && entries[i] == EntryOf(entries[i].id, rows[entries[i].id])
  }

  predicate Ordered(rows: Table, entries: seq<Entry>)
    requires forall i :: 0 <= i < |entries| ==> entries[i].id in rows
  {
    forall i, j :: 0 <= i < j < |entries| ==> Before(rows, entries[i].id, entries[j].id)
  }

  function Ids(entries: seq<Entry>): set<TaskId> {
    set i | 0 <= i < |entries| :: entries[i].id
  }

  /** The result of a listing query: exactly the listable rows, oldest first. */
  predicate IsListing(rows: Table, kind: TaskType, now: Time, entries: seq<Entry>) {
    && Selected(rows, kind, now, entries)
    && Ordered(rows, entries)
    && (forall id :: id in rows && Listable(rows[id], kind, now) ==> id in Ids(entries))
  }

  /** Every table has a listing; rows enter one at a time, each at the place its age gives it. */
  lemma ListingExists(rows: Table, kind: TaskType, now: Time)
    ensures exists entries :: IsListing(rows, kind, now, entries)
  {
    var entries := ListingOf(rows, rows.Keys, kind, now);
    assert IsListing(rows, kind, now, entries);
  }

  lemma {:induction false} ListingOf(rows: Table, ids: set<TaskId>, kind: TaskType, now: Time) returns (entries: seq<Entry>)
    requires ids <= rows.Keys
    ensures Selected(rows, kind, now, entries) && Ordered(rows, entries)
    ensures Ids(entries) == set id | id in ids && Listable(rows[id], kind, now)
    decreases |ids|
  {
    if ids == {} {
      return [];
    }
    var id :| id in ids;
    var shorter := ListingOf(rows, ids - {id}, kind, now);
    if !Listable(rows[id], kind, now) {
      return shorter;
    }
    InsertedKeepsOrder(rows, kind, now, shorter, id);
    entries := Inserted(rows, shorter, id);
  }

  /** The rows ahead of the given one. */
  function Place(rows: Table, entries: seq<Entry>, id: TaskId): (at: nat)
    requires id in rows && forall i :: 0 <= i < |entries| ==> entries[i].id in rows
    ensures at <= |entries| && (forall i :: 0 <= i < at ==> Before(rows, entries[i].id, id))
    ensures at < |entries| ==> !Before(rows, entries[at].id, id)
  {
    if entries == [] || !Before(rows, entries[0].id, id) then 0 else 1 + Place(rows, entries[1..], id)
  }

  function Inserted(rows: Table, entries: seq<Entry>, id: TaskId): seq<Entry>
    requires id in rows && forall i :: 0 <= i < |entries| ==> entries[i].id in rows
  {
    var at := Place(rows, entries, id);
    entries[..at] + [EntryOf(id, rows[id])] + entries[at..]
  }

  lemma InsertedKeepsOrder(rows: Table, kind: TaskType, now: Time, shorter: seq<Entry>, id: TaskId)
    requires Selected(rows, kind, now, shorter) && Ordered(rows, shorter)
    requires id in rows && id !in Ids(shorter) && Listable(rows[id], kind, now)
    ensures var entries := Inserted(rows, shorter, id);
      Selected(rows, kind, now, entries) && Ordered(rows, entries) && Ids(entries) == Ids(shorter) + {id}
  {
    var at := Place(rows, shorter, id);
    TheOthersFollow(rows, shorter, id);
    InsertedIds(shorter, EntryOf(id, rows[id]), at);
    InsertedOrder(rows, shorter, EntryOf(id, rows[id]), at);
  }

  lemma TheOthersFollow(rows: Table, entries: seq<Entry>, id: TaskId)
    requires id in rows && id !in Ids(entries) && (forall i :: 0 <= i < |entries| ==> entries[i].id in rows) && Ordered(rows, entries)
    ensures forall i :: Place(rows, entries, id) <= i < |entries| ==> Before(rows, id, entries[i].id)
  {
    var at := Place(rows, entries, id);
    forall i | at <= i < |entries| ensures Before(rows, id, entries[i].id) {
      assert entries[i].id in Ids(entries) && entries[at].id in Ids(entries);
      assert at < i ==> Before(rows, entries[at].id, entries[i].id);
    }
  }

  lemma InsertedOrder(rows: Table, entries: seq<Entry>, e: Entry, at: nat)
    requires e.id in rows && at <= |entries|
    requires (forall i :: 0 <= i < |entries| ==> entries[i].id in rows) && Ordered(rows, entries)
    requires forall i :: 0 <= i < at ==> Before(rows, entries[i].id, e.id)
    requires forall i :: at <= i < |entries| ==> Before(rows, e.id, entries[i].id)
    ensures var longer := entries[..at] + [e] + entries[at..];
      (forall i :: 0 <= i < |longer| ==> longer[i].id in rows) && Ordered(rows, longer)
  {
  }

  lemma InsertedIds(entries: seq<Entry>, e: Entry, at: nat)
    requires at <= |entries|
    ensures Ids(entries[..at] + [e] + entries[at..]) == Ids(entries) + {e.id}
  {
    var longer := entries[..at] + [e] + entries[at..];
    assert longer[at] == e;
    forall i | 0 <= i < |entries| ensures entries[i].id in Ids(longer) {
      assert longer[if i < at then i else i + 1] == entries[i];
    }
  }

  /** The rows that count against a handler's cap at a given time. */
  function LiveIds(rows: Table, name: Name, now: Time): set<TaskId> {
    set id | id in rows && rows[id].kind == Oneshot && rows[id].name == name && rows[id].status == Running &&
             rows[id].expireAt.Some? && rows[id].expireAt.value > now
  }
}
