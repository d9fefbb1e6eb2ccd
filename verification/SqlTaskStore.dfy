/**
 The SQL store as an object that updates its table in place, one method per transaction.
 Every method is tied to the function of TaskRows.dfy that the protocol proofs use.
 The wall clock is a parameter.
 */
module SqlTaskStore {
  import opened Wrappers
  import opened TaskRows
  import LikePatterns
  import NamespacedStore

  datatype SubmitError = IntegrityError

  /** What a record writes: start, result and one more run; the other columns stay, those of the lock included. */
  predicate HasResult(was: Row, row: Row, startedAt: Time, status: Status, failure: Option<Failure>) {
    && row.runAt == Some(startedAt) && row.runCount == was.runCount + 1 && row.status == status && row.failure == failure
    && (row.kind, row.name, row.biz, row.createdAt, row.requestAt, row.maxRuns, row.timeout) ==
       (was.kind, was.name, was.biz, was.createdAt, was.requestAt, was.maxRuns, was.timeout)
    && (row.owner, row.lockedAt, row.expireAt) == (was.owner, was.lockedAt, was.expireAt)
  }

  /** The rows picked have the result, and the table is otherwise as it was. */
  ghost predicate HaveResults(was: Table, rows: Table, picked: set<TaskId>, startedAt: Time, status: Status, failure: Option<Failure>) {
    rows.Keys == was.Keys && forall id :: id in rows ==>
      if id in picked then HasResult(was[id], rows[id], startedAt, status, failure) else rows[id] == was[id]
  }

  /** The row, if the pod owns it. */
  ghost function OwnRow(rows: Table, id: TaskId, pod: PodId): set<TaskId> {
    if id in rows && rows[id].owner == Some(pod) then {id} else {}
  }

  /** All rows of the handler that the pod owns. */
  ghost function OwnRows(rows: Table, name: Name, pod: PodId): set<TaskId> {
    set id | id in rows && rows[id].name == name && rows[id].owner == Some(pod)
  }

  lemma CleanedBy(rows: Table, retention: Retention, now: Time, gone: set<TaskId>)
    requires gone == set id | id in rows && Expired(rows[id], retention, now)
    ensures rows - gone == Cleaned(rows, retention, now) && |gone| == |rows| - |rows - gone|
  {
    assert rows.Keys == (rows - gone).Keys + gone;
    assert |rows| == |rows.Keys| && |rows - gone| == |(rows - gone).Keys|;
  }

  class TaskStore {
    const podId: PodId
    var rows: Table

    /** The unique index of the database. */
    predicate Valid()
      reads this
    {
      UniqueKeys(rows)
    }

    constructor (podId: PodId)
      ensures this.podId == podId && rows == map[] && Valid()
    {
      this.podId := podId;
      rows := map[];
    }

    method AcquireDynamicTaskLock(id: TaskId, ttl: int, now: Time) returns (acquired: bool)
      requires Valid()
      modifies this
      ensures Valid()
      ensures (rows, acquired) == AcquireLock(old(rows), id, podId, now, ttl)
    {
      if id !in rows {
        return false;
      }
      var row := rows[id];
      var isLocked := row.owner.Some?;
      var isExpired := row.expireAt.None? || row.expireAt.value <= now;
      if isLocked && !isExpired {
        return false;
      }
      rows := rows[id := row.(owner := Some(podId), lockedAt := Some(now),
                              expireAt := Some(now + ttl * SECOND), status := Running)];
      return true;
    }

    method ReleaseDynamicTaskLock(id: TaskId)
      requires Valid()
      modifies this
      ensures Valid()
      ensures rows == ReleaseLock(old(rows), id, podId)
    {
      if id in rows && rows[id].owner == Some(podId) {
        rows := rows[id := rows[id].(owner := None, lockedAt := None, expireAt := None)];
      }
    }

    method RecordDynamicSuccess(id: TaskId, startedAt: Time)
      requires Valid()
      modifies this
      ensures Valid()
      ensures forall error, attempts ::
        rows == RecordOutcome(old(rows), id, podId, Outcome(true, startedAt, error, attempts))
      ensures HaveResults(old(rows), rows, OwnRow(old(rows), id, podId), startedAt, Success, None)
    {
      if id in rows && rows[id].owner == Some(podId) {
        var row := rows[id];
        rows := rows[id := row.(runAt := Some(startedAt), runCount := row.runCount + 1, failure := None, status := Success)];
      }
    }

    method RecordDynamicFailure(id: TaskId, error: string, attempt: int, startedAt: Time)
      requires Valid()
      modifies this
      ensures Valid()
      ensures rows == RecordOutcome(old(rows), id, podId, Outcome(false, startedAt, error, attempt))
      ensures HaveResults(old(rows), rows, OwnRow(old(rows), id, podId), startedAt, Failed, Some(Failure(error, startedAt, attempt)))
    {
      if id in rows && rows[id].owner == Some(podId) {
        var row := rows[id];
        rows := rows[id := row.(runAt := Some(startedAt), runCount := row.runCount + 1,
                                failure := Some(Failure(error, startedAt, attempt)), status := Failed)];
      }
    }

    method DeleteOneshotTask(id: TaskId)
      requires Valid()
      modifies this
      ensures Valid()
      ensures rows == old(rows) - {id}
    {
      rows := rows - {id};
    }

    /** Looks up the unique key. */
    method Find(name: Name, biz: Name) returns (found: Option<TaskId>)
      requires Valid()
      ensures found.None? ==> !Taken(rows, name, Some(biz))
      ensures found.Some? ==> found.value in rows && rows[found.value].name == name && rows[found.value].biz == Some(biz)
      ensures found.Some? ==>
        forall id :: id in rows && rows[id].name == name && rows[id].biz == Some(biz) ==> id == found.value
    {
      found := None;
      var rest := rows.Keys;
      while rest != {}
        invariant rest <= rows.Keys
        invariant forall id :: id in rows && id !in rest ==> !(rows[id].name == name && rows[id].biz == Some(biz))
        decreases |rest|
      {
        var id :| id in rest;
        if rows[id].name == name && rows[id].biz == Some(biz) {
          return Some(id);
        }
        rest := rest - {id};
      }
    }

    /** The row of a scheduled handler is found by its key, and inserted by the first tick. */
    method AcquireNamedLock(newId: TaskId, name: Name, ttl: int, now: Time) returns (acquired: bool, ghost id: TaskId)
      requires Valid() && newId !in rows
      modifies this
      ensures Valid()
      ensures if old(Taken(rows, name, Some(SCHEDULED_BIZ_NAME))) then id in old(rows) && ScheduledFor(old(rows)[id], name) else id == newId
      ensures (rows, acquired) == AcquireByName(old(rows), id, name, podId, now, ttl)
    {
      var row := Find(name, SCHEDULED_BIZ_NAME);
      if row.None? {
        id := newId;
        rows := rows[newId := Row(Scheduled, name, Some(SCHEDULED_BIZ_NAME), now, Running, Some(podId), Some(now), Some(now + ttl * SECOND),
                                  None, None, 0, None, None, None)];
        return true, id;
      }
      id := row.value;
      acquired := AcquireDynamicTaskLock(row.value, ttl, now);
    }

    /** Whatever rows carry the name and this pod's lock: the scheduled row, and any other. */
    method ReleaseNamedLock(name: Name)
      requires Valid()
      modifies this
      ensures Valid()
      ensures rows == ReleaseByName(old(rows), name, podId)
    {
      rows := map id | id in rows ::
        if rows[id].name == name && rows[id].owner == Some(podId)
        then rows[id].(owner := None, lockedAt := None, expireAt := None) else rows[id];
    }

    method RecordSuccess(name: Name, startedAt: Time)
      requires Valid()
      modifies this
      ensures Valid()
      ensures forall error, attempts :: rows == RecordByName(old(rows), name, podId, Outcome(true, startedAt, error, attempts))
      ensures HaveResults(old(rows), rows, OwnRows(old(rows), name, podId), startedAt, Success, None)
    {
      rows := map id | id in rows ::
        if rows[id].name == name && rows[id].owner == Some(podId)
        then rows[id].(runAt := Some(startedAt), runCount := rows[id].runCount + 1, failure := None, status := Success) else rows[id];
    }

    method RecordFailure(name: Name, error: string, attempt: int, startedAt: Time)
      requires Valid()
      modifies this
      ensures Valid()
      ensures rows == RecordByName(old(rows), name, podId, Outcome(false, startedAt, error, attempt))
      ensures HaveResults(old(rows), rows, OwnRows(old(rows), name, podId), startedAt, Failed, Some(Failure(error, startedAt, attempt)))
    {
      rows := map id | id in rows ::
        if rows[id].name == name && rows[id].owner == Some(podId)
        then rows[id].(runAt := Some(startedAt), runCount := rows[id].runCount + 1,
                       failure := Some(Failure(error, startedAt, attempt)), status := Failed) else rows[id];
    }

    /** Inserts the row of a new key, or refreshes the one row that has it. */
    method SubmitTriggeredTask(newId: TaskId, name: Name, biz: Name, timeout: int, maxRuns: Option<int>,
                               cooldown: nat, now: Time) returns (id: TaskId)
      requires Valid() && newId !in rows
      modifies this
      ensures Valid()
      ensures !old(Taken(rows, name, Some(biz))) ==>
        id == newId && rows == old(rows)[id := NewRow(Triggered, name, Some(biz), timeout, maxRuns, Some(now), now)]
      ensures old(Taken(rows, name, Some(biz))) ==>
        id in old(rows) && old(rows)[id].name == name && old(rows)[id].biz == Some(biz) &&
        rows == old(rows)[id := Resubmitted(old(rows)[id], timeout, maxRuns, now, cooldown)]
    {
      var existing := Find(name, biz);
      if existing.None? {
        rows := rows[newId := NewRow(Triggered, name, Some(biz), timeout, maxRuns, Some(now), now)];
        return newId;
      }
      id := existing.value;
      var requestAt := now;
      if cooldown != 0 && rows[id].runAt.Some? {
        var notBefore := rows[id].runAt.value + cooldown * SECOND;
        requestAt := if now < notBefore then notBefore else now;
      }
      rows := rows[id := rows[id].(requestAt := Some(requestAt), runCount := 0, failure := None,
                                   timeout := Some(timeout), maxRuns := maxRuns)];
    }

    /**
     Idempotent in (name, biz_name): a oneshot row that has the key is returned as it is. A
     triggered row with the key makes the insertion fail.
     */
    method SubmitOneshotTask(newId: TaskId, name: Name, biz: Option<Name>, timeout: int, maxRuns: Option<int>, now: Time)
      returns (result: Result<TaskId, SubmitError>)
      requires Valid() && newId !in rows
      modifies this
      ensures Valid()
      ensures !old(Taken(rows, name, biz)) ==>
        result == Ok(newId) && rows == old(rows)[newId := NewRow(Oneshot, name, biz, timeout, maxRuns, None, now)]
      ensures old(Taken(rows, name, biz)) ==> rows == old(rows)
      ensures forall id :: id in old(rows) && biz.Some? && old(rows)[id].name == name && old(rows)[id].biz == biz ==>
        result == if old(rows)[id].kind == Oneshot then Ok(id) else Err(IntegrityError)
    {
      if biz.Some? {
        var existing := Find(name, biz.value);
        if existing.Some? {
          if rows[existing.value].kind == Oneshot {
            return Ok(existing.value);
          }
          return Err(IntegrityError);
        }
      }
      rows := rows[newId := NewRow(Oneshot, name, biz, timeout, maxRuns, None, now)];
      return Ok(newId);
    }

    /** The listing query: exactly the listable rows of one type, oldest first. */
    method ListPending(kind: TaskType, now: Time) returns (entries: seq<Entry>)
      ensures IsListing(rows, kind, now, entries)
    {
      entries := [];
      var rest := rows.Keys;
      while rest != {}
        invariant rest <= rows.Keys
        invariant Selected(rows, kind, now, entries) && Ordered(rows, entries)
        invariant Ids(entries) == set id | id in rows.Keys - rest && Listable(rows[id], kind, now)
        decreases |rest|
      {
        var id :| id in rest;
        rest := rest - {id};
        if Listable(rows[id], kind, now) {
          InsertedKeepsOrder(rows, kind, now, entries, id);
          entries := Inserted(rows, entries, id);
        }
      }
    }

    method CountRunningOneshotTasks(name: Name, now: Time) returns (count: nat)
      ensures count == |LiveIds(rows, name, now)|
    {
      count := |LiveIds(rows, name, now)|;
    }

    method CleanupExpiredOneshotTasks(retention: Retention, now: Time) returns (deleted: nat)
      requires Valid()
      modifies this
      ensures Valid()
      ensures rows == Cleaned(old(rows), retention, now)
      ensures deleted == |old(rows)| - |rows|
    {
      var gone := set id | id in rows && Expired(rows[id], retention, now);
      CleanedBy(rows, retention, now, gone);
      rows := rows - gone;
      deleted := |gone|;
    }

    /** The namespaced form: only rows whose name matches the escaped prefix. */
    method CleanupExpiredOneshotTasksByNamePrefix(retention: Retention, prefix: string, now: Time) returns (deleted: nat)
      requires Valid()
      modifies this
      ensures Valid()
      ensures rows == NamespacedStore.CleanedByPrefix(old(rows), prefix, retention, now)
      ensures deleted == |old(rows)| - |rows|
    {
      ghost var before := rows;
      if prefix == "" {
        deleted := CleanupExpiredOneshotTasks(retention, now);
        assert rows == NamespacedStore.CleanedByPrefix(before, prefix, retention, now);
        return;
      }
      var gone := set id | id in rows && Expired(rows[id], retention, now) && LikePatterns.Like(rows[id].name, LikePatterns.EscapeLike(prefix) + "%");
      NamespacedStore.CleanedWithout(rows, prefix, retention, now, gone);
      rows := rows - gone;
      deleted := |gone|;
    }
  }
}
