/**
 The code of the oneshot and the triggered runner of one pod: the tick, which lists the pending
 rows and takes them one by one, and the background task, which executes, records, releases and
 deletes. The runner keeps its own in-flight map and works on the table through the store; at
 each await the rest of the cluster may do anything that is not this code's own business.

 Coupled to the runner is the state of the state machine. The code never looks at it: it is
 moved along by the events of the others, and by one event for every step of the code, and each
 time the code's own map and the store's table have to come out as the state machine says. So
 the results about runs of the state machine are results about this code.
 */
module Runners {
  import opened Wrappers
  import opened TaskRows
  import opened TaskProtocol
  import opened TaskInvariants
  import opened SqlTaskStore
  import Executor

  // ---------- what stays across an await ----------

  /** Events that can happen while the ticker of the pod awaits; a crash would end the tick. */
  predicate Elsewhere(others: seq<Timed>, p: PodId) {
    forall k :: 0 <= k < |others| ==> !(MovesTicker(others[k].event) && others[k].event.pod == p)
  }

  /** What happens elsewhere during the k-th await, and how long the step after it takes. */
  datatype Surroundings = Surroundings(others: seq<seq<Timed>>, delays: seq<nat>) {
    function Others(k: nat): seq<Timed> {
      if k < |others| then others[k] else []
    }

    function Delay(k: nat): nat {
      if k < |delays| then delays[k] else 0
    }
  }

  ghost predicate UndisturbedTicker(env: Surroundings, p: PodId) {
    forall k :: Elsewhere(env.Others(k), p)
  }

  lemma {:induction false} TickerWaits(c: Config, s: State, others: seq<Timed>, p: PodId)
    requires p in s.pods && Elsewhere(others, p)
    ensures var n := Exec(c, s, others); p in n.pods && s.now <= n.now && n.pods[p].ticker == s.pods[p].ticker
    decreases |others|
  {
    if others != [] {
      var last := |others| - 1;
      TickerWaits(c, s, others[..last], p);
      var m := Exec(c, s, others[..last]);
      SamePods(c, m, others[last]);
      if !MovesTicker(others[last].event) {
        TickersKept(c, m, others[last], p);
      }
    }
  }

  /** Events that can happen while a background task awaits; a crash would end it. */
  predicate Aside(others: seq<Timed>, p: PodId, id: TaskId) {
    forall k :: 0 <= k < |others| ==> !EventOfRun(others[k].event, p, id) && !(others[k].event.Crash? && others[k].event.pod == p)
  }

  ghost predicate UndisturbedTask(env: Surroundings, p: PodId, id: TaskId) {
    forall k :: Aside(env.Others(k), p, id)
  }

  /** Nothing but a crash disturbs a run; and while it is in flight its pod does not get the row's lock. */
  lemma {:induction false} RunWaits(c: Config, s: State, others: seq<Timed>, p: PodId, id: TaskId)
    requires Inv(c, s) && InFlight(s, p, id) && Aside(others, p, id)
    ensures var n := Exec(c, s, others);
      Inv(c, n) && s.now <= n.now && InFlight(n, p, id) && n.pods[p].inFlight[id] == s.pods[p].inFlight[id] &&
      (s.pods[p].inFlight[id].name !in c.scheduled && !OwnedBy(s.rows, id, p) ==> !OwnedBy(n.rows, id, p))
    decreases |others|
  {
    if others != [] {
      var last := |others| - 1;
      RunWaits(c, s, others[..last], p, id);
      var m := Exec(c, s, others[..last]);
      StepKeepsInv(c, m, others[last]);
      RunKept(c, m, others[last], p, id);
      if m.pods[p].inFlight[id].name !in c.scheduled && !OwnedBy(m.rows, id, p) {
        StaysUnowned(c, m, others[last], p, id);
      }
    }
  }

  lemma RunKept(c: Config, s: State, te: Timed, p: PodId, id: TaskId)
    requires Inv(c, s) && InFlight(s, p, id) && !EventOfRun(te.event, p, id) && !(te.event.Crash? && te.event.pod == p)
    ensures var n := Step(c, s, te); s.now <= n.now && InFlight(n, p, id) && n.pods[p].inFlight[id] == s.pods[p].inFlight[id]
  {
    if MovesRun(te.event) && Step(c, s, te) != s {
      RunMove(c, s, te);
    } else if te.event.Acquire? {
      LockKeepsRuns(c, s, te, p, id);
    } else if !MovesRun(te.event) {
      OtherEventKeepsRuns(c, s, te, p, id);
    }
  }

  lemma OtherEventKeepsRuns(c: Config, s: State, te: Timed, p: PodId, id: TaskId)
    requires InFlight(s, p, id) && !MovesRun(te.event) && !te.event.Acquire?
    requires !(te.event.Retire? && te.event.pod == p && te.event.id == id) && !(te.event.Crash? && te.event.pod == p)
    ensures var n := Step(c, s, te); s.now <= n.now && InFlight(n, p, id) && n.pods[p].inFlight[id] == s.pods[p].inFlight[id]
  {
    if te.event.List? || te.event.Inspect? || te.event.CountRunning? || te.event.Abandon? {
      InFlightKept(c, s, te, p);
    } else if te.event.Cron? && Step(c, s, te) != s {
      CronPods(s, te.at, te.event.pod, te.event.name, te.event.step);
    }
  }

  lemma LockKeepsRuns(c: Config, s: State, te: Timed, p: PodId, id: TaskId)
    requires Inv(c, s) && te.event.Acquire? && InFlight(s, p, id)
    ensures var n := Step(c, s, te); s.now <= n.now && InFlight(n, p, id) && n.pods[p].inFlight[id] == s.pods[p].inFlight[id]
  {
    assert te.event.pod in s.pods ==> TickerInv(c, s, te.event.pod);
  }

  lemma StaysUnowned(c: Config, s: State, te: Timed, p: PodId, id: TaskId)
    requires Inv(c, s) && InFlight(s, p, id) && s.pods[p].inFlight[id].name !in c.scheduled && !OwnedBy(s.rows, id, p)
    ensures !OwnedBy(Step(c, s, te).rows, id, p)
  {
    assert RunInv(c, s, p, id) && TickerInv(c, s, p);
    if id in s.rows {
      assert RowInv(c, s.now, s.rows[id], s.past[id]);
      RowStep(c, s, te, id);
    } else {
      GoneForGood(c, s, te, id);
    }
  }

  lemma GoneForGood(c: Config, s: State, te: Timed, id: TaskId)
    requires id !in s.rows && id in s.past && RowsInv(c, s) && s.past[id].name !in c.scheduled
    ensures id !in Step(c, s, te).rows
  {
    if !Writes(te.event) {
      TableUntouched(c, s, te);
    }
  }

  // ---------- the runner's own map ----------

  /** The in-flight map of the runner of one type. */
  function OwnRuns(pod: Pod, kind: TaskType): map<TaskId, Name> {
    map id | id in pod.inFlight && pod.inFlight[id].kind == kind :: pod.inFlight[id].name
  }

  /** A runner that only knows its own runs decides as if it knew those of the whole pod. */
  lemma OwnRunsSuffice(c: Config, s: State, p: PodId)
    requires Inv(c, s) && Busy(s, p, Fresh)
    ensures var pod := s.pods[p]; var head := pod.ticker.queue[0]; var own := OwnRuns(pod, pod.ticker.kind);
      (head.id in own <==> head.id in pod.inFlight) &&
      (pod.ticker.kind == Oneshot ==> forall name :: (set id | id in own && own[id] == name) == LocalIds(pod, name))
  {
    var head := s.pods[p].ticker.queue[0];
    assert TickerInv(c, s, p) && EntryInv(s, s.pods[p].ticker.kind, head);
    if head.id in s.pods[p].inFlight {
      assert RunInv(c, s, p, head.id);
    }
  }

  lemma LockedRuns(s: State, t: Time, p: PodId)
    requires p in s.pods && s.pods[p].ticker.queue != []
    ensures var ticker, n := s.pods[p].ticker, AfterAcquire(s, t, p); var head := ticker.queue[0];
      p in n.pods && n.pods[p].ticker == Behind(ticker) && n.rows == AcquireLock(s.rows, head.id, p, t, head.timeout + LOCK_TTL_BUFFER).0 &&
      OwnRuns(n.pods[p], ticker.kind) ==
        if AcquireLock(s.rows, head.id, p, t, head.timeout + LOCK_TTL_BUFFER).1 then OwnRuns(s.pods[p], ticker.kind)[head.id := head.name]
        else OwnRuns(s.pods[p], ticker.kind)
  {
  }

  /** The ticker after the head of its queue is dealt with. */
  function Behind(ticker: Ticker): Ticker
    requires ticker.queue != []
  {
    ticker.(queue := ticker.queue[1..], stage := Fresh)
  }

  // ---------- what a turn and a tick come to ----------

  ghost function StateAt(c: Config, started: Time, history: seq<Timed>): State {
    Exec(c, Start(c, started), history)
  }

  /** The history after one turn of the loop, and whether it ended with the row locked and started. */
  datatype Turn = Turn(history: seq<Timed>, taken: bool)

  /** The row is passed over at once, for what the pod knows itself. */
  predicate Refused(c: Config, p: PodId, pod: Pod, kind: TaskType, entry: Entry) {
    (p, entry.name) !in c.registered || entry.id in pod.inFlight ||
    (kind == Oneshot && entry.name in c.caps && |LocalIds(pod, entry.name)| >= c.caps[entry.name])
  }

  /** Looked at; then counted if the handler has a cap; then locked. */
  ghost function TurnFrom(c: Config, started: Time, p: PodId, kind: TaskType, entry: Entry, history: seq<Timed>, env: Surroundings, k: nat): Turn {
    var s := StateAt(c, started, history);
    var looked := history + [Timed(s.now + 1 + env.Delay(k), Inspect(p))];
    if p !in s.pods || Refused(c, p, s.pods[p], kind, entry) then Turn(looked, false)
    else CountFrom(c, started, p, kind, entry, looked, env, k)
  }

  ghost function CountFrom(c: Config, started: Time, p: PodId, kind: TaskType, entry: Entry, history: seq<Timed>, env: Surroundings, k: nat): Turn {
    if kind != Oneshot || entry.name !in c.caps then LockFrom(c, started, p, entry, history + env.Others(k + 1), env.Delay(k + 2)) else
      var s := StateAt(c, started, history + env.Others(k));
      var t := s.now + 1 + env.Delay(k + 1);
      var counted := history + env.Others(k) + [Timed(t, CountRunning(p))];
      if |LiveIds(s.rows, entry.name, t)| >= c.caps[entry.name] then Turn(counted, false)
      else LockFrom(c, started, p, entry, counted + env.Others(k + 1), env.Delay(k + 2))
  }

  ghost function LockFrom(c: Config, started: Time, p: PodId, entry: Entry, history: seq<Timed>, delay: nat): Turn {
    var s := StateAt(c, started, history);
    var t := s.now + 1 + delay;
    Turn(history + [Timed(t, Acquire(p))], entry.id in s.rows && LockFree(s.rows[entry.id], t))
  }

  /** The history after the turns of all these rows, and the rows that they launched, in order. */
  datatype Turns = Turns(history: seq<Timed>, launched: seq<TaskId>)

  ghost function TurnsFrom(c: Config, started: Time, p: PodId, kind: TaskType, entries: seq<Entry>, history: seq<Timed>,
                           env: Surroundings, k: nat): Turns
    decreases |entries|
  {
    if entries == [] then Turns(history, []) else
      var turn := TurnFrom(c, started, p, kind, entries[0], history, env, k);
      var rest := TurnsFrom(c, started, p, kind, entries[1..], turn.history, env, k + 3);
      Turns(rest.history, (if turn.taken then [entries[0].id] else []) + rest.launched)
  }

  /** How a background task is broken off, if it is. */
  datatype Interruption = Never | InExecutor | InRecord | WhileCommitting

  /** The retry policy of a handler, and how its attempts would end. */
  datatype Job = Job(maxRuns: int, backoff: Executor.Backoff, attempts: nat -> Executor.Attempt)

  function Latest(a: Time, b: Time): Time {
    if a < b then b else a
  }

  function Limit(run: Run): nat {
    if run.timeout < 0 then 0 else run.timeout
  }

  ghost predicate Fair(job: Job, run: Run) {
    Executor.UnderTimeout(job.attempts, Limit(run))
  }

  /** The table after a task that nobody interferes with: recorded or not, unlocked, or deleted. */
  function Settled(c: Config, rows: Table, id: TaskId, kind: TaskType, recorded: Option<Outcome>, succeeded: bool): Table
    requires id in rows
  {
    if kind == Oneshot && DeletesAtOnce(c.retention, succeeded) then rows - {id}
    else rows[id := Unlocked(if recorded.Some? then Recorded(rows[id], Reported(recorded.value)) else rows[id])]
  }

  lemma RetiredRuns(pod: Pod, id: TaskId, kind: TaskType)
    ensures OwnRuns(pod.(inFlight := pod.inFlight - {id}), kind) == OwnRuns(pod, kind) - {id}
  {
  }

  lemma PhaseKeepsRuns(s: State, p: PodId, id: TaskId, phase: Phase, kind: TaskType)
    requires InFlight(s, p, id)
    ensures OwnRuns(SetPhase(s, p, id, phase).pods[p], kind) == OwnRuns(s.pods[p], kind)
  {
  }

  class Runner {
    const config: Config
    const started: Time
    const kind: TaskType
    const store: TaskStore
    var inFlight: map<TaskId, Name>
    var world: State              // not read by any decision of the code
    ghost var history: seq<Timed>

    ghost predicate Valid()
      reads this, store
    {
      && kind != Scheduled && store.podId in config.pods
      && world == Exec(config, Start(config, started), history)
      && store.podId in world.pods && store.rows == world.rows
      && inFlight == OwnRuns(world.pods[store.podId], kind)
    }

    constructor (config: Config, started: Time, kind: TaskType, store: TaskStore)
      requires kind != Scheduled && store.podId in config.pods && store.rows == map[]
      ensures this.config == config && this.started == started && this.kind == kind && this.store == store
      ensures Valid() && history == [] && inFlight == map[]
    {
      this.config := config;
      this.started := started;
      this.kind := kind;
      this.store := store;
      this.inFlight := map[];
      this.world := Start(config, started);
      this.history := [];
    }

    /** Other things happen: the state moves on, and the table and the map with it. */
    method Await(others: seq<Timed>)
      requires Valid()
      modifies this, store
      ensures Valid() && history == old(history) + others && world == Exec(config, old(world), others)
      ensures store.Valid()
    {
      ExecConcat(config, Start(config, started), history, others);
      StillThere(config, started, history + others, store.podId);
      world := Exec(config, world, others);
      history := history + others;
      store.rows := world.rows;
      inFlight := OwnRuns(world.pods[store.podId], kind);
    }

    /** The code has made a step, and it is the one that the state machine makes. */
    method Note(te: Timed)
      requires kind != Scheduled && store.podId in config.pods && world == Exec(config, Start(config, started), history)
      requires var n := Step(config, world, te);
        store.podId in n.pods && store.rows == n.rows && inFlight == OwnRuns(n.pods[store.podId], kind)
      modifies this`world, this`history
      ensures Valid() && history == old(history) + [te] && world == Step(config, old(world), te)
    {
      ExecSnoc(config, Start(config, started), history, te);
      world := Step(config, world, te);
      history := history + [te];
    }

    // ---------- the tick ----------

    /** The listing query. */
    method ListPending(t: Time) returns (pending: seq<Entry>)
      requires Valid() && t > world.now && world.pods[store.podId].ticker.queue == []
      modifies this`world, this`history
      ensures Valid() && history == old(history) + [Timed(t, List(store.podId, kind, pending))]
      ensures world == Step(config, old(world), Timed(t, List(store.podId, kind, pending))) && store.podId in world.pods
      ensures IsListing(old(world).rows, kind, t, pending)
      ensures world.pods[store.podId].ticker == Ticker(kind, t, pending, Fresh) && world.now == t
    {
      pending := store.ListPending(kind, t);
      ListStep(config, world, t, store.podId, kind, pending);
      Note(Timed(t, List(store.podId, kind, pending)));
    }

    /** This runner's tick is under way, and the given row is next. */
    ghost predicate Next(entry: Entry)
      reads this, store
    {
      Valid() && Busy(world, store.podId, Fresh) && world.pods[store.podId].ticker.kind == kind && world.pods[store.podId].ticker.queue[0] == entry
    }

    method InFlightCountByHandler(name: Name) returns (count: nat)
      ensures count == |set id | id in inFlight && inFlight[id] == name|
    {
      count := |set id | id in inFlight && inFlight[id] == name|;
    }

    /** Registered here, not in flight here, below the cap as far as this runner knows. */
    method LooksFree(entry: Entry, t: Time) returns (further: bool)
      requires Next(entry) && t > world.now
      modifies this`world, this`history
      ensures Valid() && history == old(history) + [Timed(t, Inspect(store.podId))]
      ensures world == Step(config, old(world), Timed(t, Inspect(store.podId))) && store.podId in world.pods
      ensures world.pods[store.podId].ticker ==
        if further then old(world).pods[store.podId].ticker.(stage := Inspected) else Behind(old(world).pods[store.podId].ticker)
      ensures further <==> !Refused(config, store.podId, old(world).pods[store.podId], kind, entry)
    {
      InvAlways(config, started, history);
      OwnRunsSuffice(config, world, store.podId);
      InspectStep(config, world, t, store.podId);
      Note(Timed(t, Inspect(store.podId)));
      if (store.podId, entry.name) !in config.registered {
        return false;
      }
      if entry.id in inFlight {
        return false;
      }
      if kind == Oneshot && entry.name in config.caps {
        var localCount := InFlightCountByHandler(entry.name);
        if localCount >= config.caps[entry.name] {
          return false;
        }
      }
      return true;
    }

    /** The cluster-wide count. */
    method BelowCap(entry: Entry, t: Time) returns (below: bool)
      requires Valid() && t > world.now && Busy(world, store.podId, Inspected) && world.pods[store.podId].ticker.queue[0] == entry
      requires Capped(config, world.pods[store.podId].ticker)
      modifies this`world, this`history
      ensures Valid() && history == old(history) + [Timed(t, CountRunning(store.podId))]
      ensures world == Step(config, old(world), Timed(t, CountRunning(store.podId))) && store.podId in world.pods && store.rows == old(store.rows)
      ensures world.pods[store.podId].ticker ==
        if below then old(world).pods[store.podId].ticker.(stage := Cleared) else Behind(old(world).pods[store.podId].ticker)
      ensures below <==> |LiveIds(old(world).rows, entry.name, t)| < config.caps[entry.name]
    {
      var running := store.CountRunningOneshotTasks(entry.name, t);
      CountStep(config, world, t, store.podId);
      Note(Timed(t, CountRunning(store.podId)));
      return running < config.caps[entry.name];
    }

    /** The lock; with it the background task exists and is registered as in flight. */
    method TryLock(entry: Entry, t: Time) returns (acquired: bool)
      requires Valid() && store.Valid() && t > world.now
      requires Busy(world, store.podId, Cleared) || (Busy(world, store.podId, Inspected) && !Capped(config, world.pods[store.podId].ticker))
      requires world.pods[store.podId].ticker.kind == kind && world.pods[store.podId].ticker.queue[0] == entry
      modifies this, store
      ensures Valid() && history == old(history) + [Timed(t, Acquire(store.podId))]
      ensures world == Step(config, old(world), Timed(t, Acquire(store.podId))) && store.podId in world.pods
      ensures world.pods[store.podId].ticker == Behind(old(world).pods[store.podId].ticker)
      ensures acquired <==> entry.id in old(world).rows && LockFree(old(world).rows[entry.id], t)
    {
      acquired := store.AcquireDynamicTaskLock(entry.id, entry.timeout + LOCK_TTL_BUFFER, t);
      if acquired {
        inFlight := inFlight[entry.id := entry.name];
      }
      LockedRuns(world, t, store.podId);
      AcquireStep(config, world, t, store.podId);
      Note(Timed(t, Acquire(store.podId)));
    }

    method LockHead(entry: Entry, others: seq<Timed>, delay: nat) returns (taken: bool)
      requires Valid() && Elsewhere(others, store.podId)
      requires Busy(world, store.podId, Cleared) || (Busy(world, store.podId, Inspected) && !Capped(config, world.pods[store.podId].ticker))
      requires world.pods[store.podId].ticker.kind == kind && world.pods[store.podId].ticker.queue[0] == entry
      modifies this, store
      ensures Turn(history, taken) == LockFrom(config, started, store.podId, entry, old(history) + others, delay)
      ensures Valid() && world.pods[store.podId].ticker == Behind(old(world).pods[store.podId].ticker)
    {
      TickerWaits(config, world, others, store.podId);
      Await(others);
      taken := TryLock(entry, world.now + 1 + delay);
    }

    method CountNow(entry: Entry, others: seq<Timed>, delay: nat) returns (below: bool)
      requires Valid() && Elsewhere(others, store.podId) && Busy(world, store.podId, Inspected)
      requires Capped(config, world.pods[store.podId].ticker) && world.pods[store.podId].ticker.queue[0] == entry
      modifies this, store
      ensures var s := StateAt(config, started, old(history) + others);
        var t := s.now + 1 + delay;
        history == old(history) + others + [Timed(t, CountRunning(store.podId))] &&
        (below <==> |LiveIds(s.rows, entry.name, t)| < config.caps[entry.name])
      ensures Valid()
      ensures world.pods[store.podId].ticker ==
        if below then old(world).pods[store.podId].ticker.(stage := Cleared) else Behind(old(world).pods[store.podId].ticker)
    {
      TickerWaits(config, world, others, store.podId);
      Await(others);
      below := BelowCap(entry, world.now + 1 + delay);
    }

    method CountAndLock(entry: Entry, env: Surroundings, k: nat) returns (taken: bool)
      requires Valid() && UndisturbedTicker(env, store.podId) && Busy(world, store.podId, Inspected)
      requires world.pods[store.podId].ticker.kind == kind && world.pods[store.podId].ticker.queue[0] == entry
      modifies this, store
      ensures Turn(history, taken) == CountFrom(config, started, store.podId, kind, entry, old(history), env, k)
      ensures Valid() && world.pods[store.podId].ticker == Behind(old(world).pods[store.podId].ticker)
    {
      if kind != Oneshot || entry.name !in config.caps {
        taken := LockHead(entry, env.Others(k + 1), env.Delay(k + 2));
        return;
      }
      var below := CountNow(entry, env.Others(k), env.Delay(k + 1));
      if !below {
        return false;
      }
      taken := LockHead(entry, env.Others(k + 1), env.Delay(k + 2));
    }

    /** The body of the loop, for the row that is next. */
    method LockOne(entry: Entry, env: Surroundings, k: nat) returns (taken: bool)
      requires Next(entry) && UndisturbedTicker(env, store.podId)
      modifies this, store
      ensures Turn(history, taken) == TurnFrom(config, started, store.podId, kind, entry, old(history), env, k)
      ensures Valid() && world.pods[store.podId].ticker == Behind(old(world).pods[store.podId].ticker)
    {
      var further := LooksFree(entry, world.now + 1 + env.Delay(k));
      if !further {
        return false;
      }
      taken := CountAndLock(entry, env, k);
    }

    /** One tick. */
    method Tick(env: Surroundings) returns (pending: seq<Entry>, launched: seq<TaskId>)
      requires Valid() && world.pods[store.podId].ticker.queue == [] && UndisturbedTicker(env, store.podId)
      modifies this, store
      ensures Valid() && world.pods[store.podId].ticker.queue == []
      ensures var s := StateAt(config, started, old(history) + env.Others(0));
        var t := s.now + 1 + env.Delay(0);
        IsListing(s.rows, kind, t, pending) &&
        Turns(history, launched) == TurnsFrom(config, started, store.podId, kind, pending,
                                              old(history) + env.Others(0) + [Timed(t, List(store.podId, kind, pending))], env, 1)
    {
      pending := ListAll(env);
      launched := LockAll(pending, env);
    }

    method ListAll(env: Surroundings) returns (pending: seq<Entry>)
      requires Valid() && world.pods[store.podId].ticker.queue == [] && UndisturbedTicker(env, store.podId)
      modifies this, store
      ensures Valid() && world.pods[store.podId].ticker == Ticker(kind, world.now, pending, Fresh)
      ensures var s := StateAt(config, started, old(history) + env.Others(0));
        var t := s.now + 1 + env.Delay(0);
        IsListing(s.rows, kind, t, pending) && history == old(history) + env.Others(0) + [Timed(t, List(store.podId, kind, pending))]
    {
      TickerWaits(config, world, env.Others(0), store.podId);
      Await(env.Others(0));
      pending := ListPending(world.now + 1 + env.Delay(0));
    }

    /** The loop over the listing. */
    method LockAll(pending: seq<Entry>, env: Surroundings) returns (launched: seq<TaskId>)
      requires Valid() && world.pods[store.podId].ticker == Ticker(kind, world.now, pending, Fresh) && UndisturbedTicker(env, store.podId)
      modifies this, store
      ensures Turns(history, launched) == TurnsFrom(config, started, store.podId, kind, pending, old(history), env, 1)
      ensures Valid() && world.pods[store.podId].ticker.queue == []
    {
      launched := [];
      var i, k := 0, 1;
      ghost var turns := TurnsFrom(config, started, store.podId, kind, pending, history, env, 1);
      while i < |pending|
        invariant 0 <= i <= |pending| && Valid()
        invariant world.pods[store.podId].ticker == Ticker(kind, old(world).now, pending[i..], Fresh)
        invariant Beyond(turns, launched, TurnsFrom(config, started, store.podId, kind, pending[i..], history, env, k))
        decreases |pending| - i
      {
        var entry := pending[i];
        NextTurn(turns, launched, config, started, store.podId, kind, pending, i, history, env, k);
        var taken := LockOne(entry, env, k);
        launched := launched + if taken then [entry.id] else [];
        i, k := i + 1, k + 3;
      }
    }

    // ---------- the background task ----------

    /** The background task awaits; other things happen. */
    method AwaitTask(id: TaskId, others: seq<Timed>)
      requires Valid() && InFlight(world, store.podId, id) && Aside(others, store.podId, id)
      modifies this, store
      ensures Valid() && store.Valid() && history == old(history) + others && world == Exec(config, old(world), others)
      ensures old(world).now <= world.now && InFlight(world, store.podId, id)
      ensures world.pods[store.podId].inFlight[id] == old(world).pods[store.podId].inFlight[id]
      ensures world.pods[store.podId].inFlight[id].name !in config.scheduled && !OwnedBy(old(store.rows), id, store.podId) ==>
        !OwnedBy(store.rows, id, store.podId)
    {
      InvAlways(config, started, history);
      RunWaits(config, world, others, store.podId, id);
      Await(others);
    }

    /** One step of the background task: the state machine brings its run into the next phase. */
    method NoteTask(id: TaskId, te: Timed, phase: Phase, ghost next: State)
      requires kind != Scheduled && store.podId in config.pods && world == Exec(config, Start(config, started), history)
      requires InFlight(world, store.podId, id) && inFlight == OwnRuns(world.pods[store.podId], kind)
      requires next == Step(config, world, te) && next.pods == SetPhase(world, store.podId, id, phase).pods && next.rows == store.rows
      modifies this`world, this`history
      ensures Valid() && history == old(history) + [te] && InFlight(world, store.podId, id) && world.now == next.now
      ensures world.pods[store.podId].inFlight[id] == old(world).pods[store.podId].inFlight[id].(phase := phase)
    {
      PhaseKeepsRuns(world, store.podId, id, phase, kind);
      Note(te);
    }

    /** `executor.execute`: the run begins, and has a result when the retry loop is done. */
    method ExecuteRun(id: TaskId, job: Job, others: seq<Timed>, delay: nat) returns (outcome: Outcome)
      requires Valid() && InFlight(world, store.podId, id) && world.pods[store.podId].inFlight[id].phase == Executing(world.now)
      requires Fair(job, world.pods[store.podId].inFlight[id]) && Aside(others, store.podId, id)
      modifies this, store
      ensures Valid() && old(history) + others < history && InFlight(world, store.podId, id)
      ensures world.pods[store.podId].inFlight[id] == old(world).pods[store.podId].inFlight[id].(phase := Finished(outcome))
      ensures outcome.startedAt == old(world).now && (outcome.ok <==> exists k: nat :: 1 <= k <= job.maxRuns && job.attempts(k).result.Succeeded?)
      ensures outcome.attempts >= 0 ==>
        world.now > outcome.startedAt + Executor.Worked(job.attempts, outcome.attempts) + Executor.BackoffSum(job.backoff, outcome.attempts) * SECOND
      ensures others == [] ==> store.rows == old(store.rows)
      ensures job.maxRuns >= 0 ==>
        var bound := Executor.ExecutionBound(job.maxRuns, Limit(world.pods[store.podId].inFlight[id]), job.backoff) * SECOND;
        world.now <= 1 + delay + Latest(outcome.startedAt + bound, Exec(config, old(world), others).now)
    {
      var limit := Limit(world.pods[store.podId].inFlight[id]);
      var end;
      outcome, end := Executor.Execute(job.maxRuns, limit, job.backoff, job.attempts, world.now);
      AwaitTask(id, others);
      var t := 1 + delay + Latest(end, world.now);
      FinishStep(config, world, t, store.podId, id, outcome.ok, outcome.error, outcome.attempts);
      NoteTask(id, Timed(t, Finish(store.podId, id, outcome.ok, outcome.error, outcome.attempts)), Finished(outcome),
               SetPhase(world, store.podId, id, Finished(outcome)).(now := t));
    }

    /** `record_dynamic_success` or `record_dynamic_failure`; a lost record is committed, but the task is cancelled before it hears of it. */
    method RecordRun(id: TaskId, outcome: Outcome, lost: bool, t: Time)
      requires Valid() && store.Valid() && t > world.now && InFlight(world, store.podId, id)
      requires world.pods[store.podId].inFlight[id].phase == Finished(outcome)
      modifies this, store
      ensures Valid() && history == old(history) + [Timed(t, Record(store.podId, id, lost))] && InFlight(world, store.podId, id)
      ensures store.rows == RecordOutcome(old(store.rows), id, store.podId, Reported(outcome))
      ensures world.pods[store.podId].inFlight[id] == old(world).pods[store.podId].inFlight[id].(phase := Unlocking(outcome.ok && !lost))
    {
      if outcome.ok {
        store.RecordDynamicSuccess(id, outcome.startedAt);
      } else {
        store.RecordDynamicFailure(id, if outcome.error == "" then "unknown error" else outcome.error, outcome.attempts, outcome.startedAt);
      }
      RecordStep(config, world, t, store.podId, id, lost);
      NoteTask(id, Timed(t, Record(store.podId, id, lost)), Unlocking(outcome.ok && !lost), AfterRecord(world, store.podId, id, lost).(now := t));
    }

    /** Executes and records, unless broken off; `recorded` is what the row has been told. */
    method RunOne(id: TaskId, job: Job, breaks: Interruption, env: Surroundings) returns (succeeded: bool, recorded: Option<Outcome>)
      requires Valid() && InFlight(world, store.podId, id) && world.pods[store.podId].inFlight[id].phase.Dispatched?
      requires Fair(job, world.pods[store.podId].inFlight[id]) && UndisturbedTask(env, store.podId, id)
      modifies this, store
      ensures Valid() && old(history) <= history && InFlight(world, store.podId, id)
      ensures var run := world.pods[store.podId].inFlight[id];
        run == old(world).pods[store.podId].inFlight[id].(phase := run.phase) &&
        if recorded.Some? then run.phase == Unlocking(succeeded) else Breakable(run.phase) && !succeeded
      ensures recorded.Some? <==> breaks == Never || breaks == WhileCommitting
      ensures recorded.Some? ==> (recorded.value.ok <==> exists k: nat :: 1 <= k <= job.maxRuns && job.attempts(k).result.Succeeded?)
      ensures succeeded <==> breaks == Never && recorded.value.ok
      ensures env.others == [] ==>
        store.rows == if recorded.Some? then RecordOutcome(old(store.rows), id, store.podId, Reported(recorded.value)) else old(store.rows)
    {
      Begins(id, env.Others(0), env.Delay(0));
      if breaks == InExecutor {
        AwaitTask(id, env.Others(1));
        return false, None;
      }
      var outcome := ExecuteRun(id, job, env.Others(1), env.Delay(1));
      recorded := RecordUnlessBroken(id, outcome, breaks, env.Others(2), env.Delay(2));
      succeeded := breaks == Never && outcome.ok;
    }

    method RecordUnlessBroken(id: TaskId, outcome: Outcome, breaks: Interruption, others: seq<Timed>, delay: nat) returns (recorded: Option<Outcome>)
      requires Valid() && InFlight(world, store.podId, id) && world.pods[store.podId].inFlight[id].phase == Finished(outcome)
      requires breaks != InExecutor && Aside(others, store.podId, id)
      modifies this, store
      ensures Valid() && old(history) <= history && InFlight(world, store.podId, id)
      ensures recorded == if breaks == InRecord then None else Some(outcome)
      ensures world.pods[store.podId].inFlight[id] ==
        if breaks == InRecord then old(world).pods[store.podId].inFlight[id]
        else old(world).pods[store.podId].inFlight[id].(phase := Unlocking(outcome.ok && breaks == Never))
      ensures others == [] ==>
        store.rows == if recorded.Some? then RecordOutcome(old(store.rows), id, store.podId, Reported(outcome)) else old(store.rows)
    {
      AwaitTask(id, others);
      if breaks == InRecord {
        return None;
      }
      RecordRun(id, outcome, breaks == WhileCommitting, world.now + 1 + delay);
      return Some(outcome);
    }

    method Begins(id: TaskId, others: seq<Timed>, delay: nat)
      requires Valid() && InFlight(world, store.podId, id) && world.pods[store.podId].inFlight[id].phase.Dispatched? && Aside(others, store.podId, id)
      modifies this, store
      ensures Valid() && old(history) <= history && InFlight(world, store.podId, id) && (others == [] ==> store.rows == old(store.rows))
      ensures world.pods[store.podId].inFlight[id] == old(world).pods[store.podId].inFlight[id].(phase := Executing(world.now))
    {
      AwaitTask(id, others);
      var t := world.now + 1 + delay;
      BeginStep(config, world, t, store.podId, id);
      NoteTask(id, Timed(t, Begin(store.podId, id)), Executing(t), SetPhase(world, store.podId, id, Executing(t)).(now := t));
    }

    method ReleaseRun(id: TaskId, succeeded: bool, fails: bool, others: seq<Timed>, delay: nat)
      requires Valid() && InFlight(world, store.podId, id) && world.pods[store.podId].inFlight[id].phase == Unlocking(succeeded)
      requires Aside(others, store.podId, id)
      modifies this, store
      ensures Valid() && old(history) <= history && InFlight(world, store.podId, id)
      ensures world.pods[store.podId].inFlight[id] == old(world).pods[store.podId].inFlight[id].(phase := Deleting(succeeded))
      ensures !fails ==> !OwnedBy(store.rows, id, store.podId)
      ensures others == [] ==> store.rows == if fails then old(store.rows) else ReleaseLock(old(store.rows), id, store.podId)
    {
      AwaitTask(id, others);
      var t := world.now + 1 + delay;
      ReleaseStep(config, world, t, store.podId, id, fails);
      if !fails {
        store.ReleaseDynamicTaskLock(id);
      }
      NoteTask(id, Timed(t, Release(store.podId, id, fails)), Deleting(succeeded),
               SetPhase(world, store.podId, id, Deleting(succeeded)).(now := t, rows := store.rows));
    }

    method DeleteRun(id: TaskId, succeeded: bool, fails: bool, others: seq<Timed>, delay: nat)
      requires Valid() && InFlight(world, store.podId, id) && world.pods[store.podId].inFlight[id].phase == Deleting(succeeded)
      requires Aside(others, store.podId, id) && world.pods[store.podId].inFlight[id].kind == kind
      modifies this, store
      ensures Valid() && old(history) <= history && InFlight(world, store.podId, id)
      ensures world.pods[store.podId].inFlight[id] == old(world).pods[store.podId].inFlight[id].(phase := Done)
      ensures var deletes := !fails && kind == Oneshot && DeletesAtOnce(config.retention, succeeded);
        (deletes ==> id !in store.rows) &&
        (others == [] ==> store.rows == if deletes then old(store.rows) - {id} else old(store.rows))
      ensures world.pods[store.podId].inFlight[id].name !in config.scheduled && !OwnedBy(old(store.rows), id, store.podId) ==>
        !OwnedBy(store.rows, id, store.podId)
    {
      AwaitTask(id, others);
      var t := world.now + 1 + delay;
      DeleteStep(config, world, t, store.podId, id, fails);
      if !fails && kind == Oneshot {
        if succeeded && config.retention.successSeconds == 0 {
          store.DeleteOneshotTask(id);
        } else if !succeeded && config.retention.failureSeconds == 0 {
          store.DeleteOneshotTask(id);
        }
      }
      NoteTask(id, Timed(t, Delete(store.podId, id, fails)), Done, SetPhase(world, store.podId, id, Done).(now := t, rows := store.rows));
    }

    /** The done callback: no longer in flight. */
    method Leave(id: TaskId, others: seq<Timed>, delay: nat)
      requires Valid() && InFlight(world, store.podId, id) && world.pods[store.podId].inFlight[id].phase.Done? && Aside(others, store.podId, id)
      requires world.pods[store.podId].inFlight[id].kind == kind
      modifies this, store
      ensures Valid() && old(history) <= history && id !in inFlight && (others == [] ==> store.rows == old(store.rows))
      ensures old(world).pods[store.podId].inFlight[id].name !in config.scheduled && !OwnedBy(old(store.rows), id, store.podId) ==>
        !OwnedBy(store.rows, id, store.podId)
    {
      AwaitTask(id, others);
      RetireStep(config, world, world.now + 1 + delay, store.podId, id);
      RetiredRuns(world.pods[store.podId], id, kind);
      inFlight := inFlight - {id};
      Note(Timed(world.now + 1 + delay, Retire(store.podId, id)));
    }

    /** The `finally` block, and the callback after it. */
    method Finalize(id: TaskId, succeeded: bool, releaseFails: bool, deleteFails: bool, env: Surroundings)
      requires Valid() && InFlight(world, store.podId, id) && world.pods[store.podId].inFlight[id].phase == Unlocking(succeeded)
      requires UndisturbedTask(env, store.podId, id) && world.pods[store.podId].inFlight[id].kind == kind
      modifies this, store
      ensures Valid() && old(history) <= history && id !in inFlight
      ensures !releaseFails && old(world).pods[store.podId].inFlight[id].name !in config.scheduled ==> !OwnedBy(store.rows, id, store.podId)
      ensures env.others == [] ==>
        var rows := if releaseFails then old(store.rows) else ReleaseLock(old(store.rows), id, store.podId);
        store.rows == if !deleteFails && kind == Oneshot && DeletesAtOnce(config.retention, succeeded) then rows - {id} else rows
    {
      ReleaseRun(id, succeeded, releaseFails, env.Others(3), env.Delay(3));
      DeleteRun(id, succeeded, deleteFails, env.Others(4), env.Delay(4));
      Leave(id, env.Others(5), env.Delay(5));
    }

    /**
     The whole background task. Whatever happened, it is no longer in flight afterwards, and
     unless the release failed its pod does not own the row; if nobody interferes, the table is
     the settled one.
     */
    method RunOneAndFinalize(id: TaskId, job: Job, breaks: Interruption, releaseFails: bool, deleteFails: bool, env: Surroundings, after: Surroundings)
      returns (succeeded: bool, recorded: Option<Outcome>)
      requires Valid() && InFlight(world, store.podId, id) && world.pods[store.podId].inFlight[id].phase.Dispatched?
      requires Fair(job, world.pods[store.podId].inFlight[id]) && world.pods[store.podId].inFlight[id].kind == kind
      requires UndisturbedTask(env, store.podId, id) && UndisturbedTask(after, store.podId, id)
      modifies this, store
      ensures Valid() && old(history) <= history && id !in inFlight
      ensures succeeded <==> breaks == Never && exists k: nat :: 1 <= k <= job.maxRuns && job.attempts(k).result.Succeeded?
      ensures recorded.Some? <==> breaks == Never || breaks == WhileCommitting
      ensures !releaseFails && old(world).pods[store.podId].inFlight[id].name !in config.scheduled ==> !OwnedBy(store.rows, id, store.podId)
      ensures env.others == [] && after.others == [] && !releaseFails && !deleteFails && OwnedBy(old(store.rows), id, store.podId) ==>
        store.rows == Settled(config, old(store.rows), id, kind, recorded, succeeded)
    {
      succeeded, recorded := RunOne(id, job, breaks, env);
      if recorded.None? {
        BreaksOff(id, world.now + 1);
      }
      Finalize(id, succeeded, releaseFails, deleteFails, after);
    }

    /** Cancelled, or an error on the way: on to the `finally` block. */
    method BreaksOff(id: TaskId, t: Time)
      requires Valid() && t > world.now && InFlight(world, store.podId, id) && Breakable(world.pods[store.podId].inFlight[id].phase)
      modifies this`world, this`history
      ensures Valid() && history == old(history) + [Timed(t, Abort(store.podId, id))] && InFlight(world, store.podId, id)
      ensures world.pods[store.podId].inFlight[id] == old(world).pods[store.podId].inFlight[id].(phase := Unlocking(false))
    {
      AbortStep(config, world, t, store.podId, id);
      NoteTask(id, Timed(t, Abort(store.podId, id)), Unlocking(false), SetPhase(world, store.podId, id, Unlocking(false)).(now := t));
    }
  }

  /** Some rows have been launched, and the rest of the turns gives the rest. */
  ghost predicate Beyond(turns: Turns, launched: seq<TaskId>, rest: Turns) {
    turns.history == rest.history && turns.launched == launched + rest.launched
  }

  lemma NextTurn(turns: Turns, launched: seq<TaskId>, c: Config, started: Time, p: PodId, kind: TaskType, pending: seq<Entry>, i: nat,
                 history: seq<Timed>, env: Surroundings, k: nat)
    requires i < |pending| && Beyond(turns, launched, TurnsFrom(c, started, p, kind, pending[i..], history, env, k))
    ensures var turn := TurnFrom(c, started, p, kind, pending[i], history, env, k);
      Beyond(turns, launched + if turn.taken then [pending[i].id] else [],
             TurnsFrom(c, started, p, kind, pending[i + 1..], turn.history, env, k + 3))
  {
    var turn := TurnFrom(c, started, p, kind, pending[i], history, env, k);
    FirstTurn(c, started, p, kind, pending[i..], pending[i], pending[i + 1..], history, env, k);
    BeyondMore(turns, launched, if turn.taken then [pending[i].id] else [],
               TurnsFrom(c, started, p, kind, pending[i + 1..], turn.history, env, k + 3));
  }

  lemma FirstTurn(c: Config, started: Time, p: PodId, kind: TaskType, entries: seq<Entry>, first: Entry, others: seq<Entry>,
                  history: seq<Timed>, env: Surroundings, k: nat)
    requires entries == [first] + others
    ensures var turn := TurnFrom(c, started, p, kind, first, history, env, k);
      var rest := TurnsFrom(c, started, p, kind, others, turn.history, env, k + 3);
      TurnsFrom(c, started, p, kind, entries, history, env, k) ==
        Turns(rest.history, (if turn.taken then [first.id] else []) + rest.launched)
  {
    assert entries[1..] == others;
  }

  lemma BeyondMore(turns: Turns, launched: seq<TaskId>, taken: seq<TaskId>, rest: Turns)
    requires Beyond(turns, launched, Turns(rest.history, taken + rest.launched))
    ensures Beyond(turns, launched + taken, rest)
  {
  }

  lemma StillThere(c: Config, started: Time, history: seq<Timed>, p: PodId)
    requires p in c.pods
    ensures p in Exec(c, Start(c, started), history).pods && UniqueKeys(Exec(c, Start(c, started), history).rows)
  {
    InvAlways(c, started, history);
    UniqueKeysAlways(c, started, history);
  }

  // ---------- a tick that nobody disturbs ----------

  /** The given rows are next, without a cap. */
  ghost predicate Uncapped(c: Config, s: State, p: PodId, kind: TaskType, entries: seq<Entry>) {
    p in s.pods && s.pods[p].ticker == Ticker(kind, s.pods[p].ticker.listedAt, entries, Fresh) &&
    (kind == Oneshot ==> forall e :: e in entries ==> e.name !in c.caps) &&
    (forall i, j :: 0 <= i < j < |entries| ==> entries[i].id != entries[j].id)
  }

  ghost predicate SameOthers(s: State, n: State, p: PodId, id: TaskId) {
    p in s.pods && p in n.pods && s.rows.Keys == n.rows.Keys &&
    (forall x :: x in s.rows && x != id ==> n.rows[x] == s.rows[x]) &&
    (forall x :: x != id ==> (x in n.pods[p].inFlight <==> x in s.pods[p].inFlight))
  }

  /** What is looked at is passed over or inspected, and nothing else changes. */
  lemma CalmLook(c: Config, started: Time, p: PodId, kind: TaskType, entries: seq<Entry>, history: seq<Timed>, t: Time)
    requires entries != [] && Uncapped(c, StateAt(c, started, history), p, kind, entries) && t > StateAt(c, started, history).now
    ensures var s, n := StateAt(c, started, history), StateAt(c, started, history + [Timed(t, Inspect(p))]);
      n.now == t && n.rows == s.rows && p in n.pods && n.pods[p].inFlight == s.pods[p].inFlight &&
      n.pods[p].ticker == if Refused(c, p, s.pods[p], kind, entries[0]) then Behind(s.pods[p].ticker) else s.pods[p].ticker.(stage := Inspected)
  {
    ExecSnoc(c, Start(c, started), history, Timed(t, Inspect(p)));
    InspectStep(c, StateAt(c, started, history), t, p);
  }

  lemma CalmLock(c: Config, started: Time, p: PodId, entry: Entry, history: seq<Timed>, t: Time)
    requires var s := StateAt(c, started, history);
      t > s.now && Busy(s, p, Inspected) && !Capped(c, s.pods[p].ticker) && s.pods[p].ticker.queue[0] == entry
    ensures var s, n := StateAt(c, started, history), StateAt(c, started, history + [Timed(t, Acquire(p))]);
      n.now == t && SameOthers(s, n, p, entry.id) && n.pods[p].ticker == Behind(s.pods[p].ticker)
  {
    ExecSnoc(c, Start(c, started), history, Timed(t, Acquire(p)));
    AcquireStep(c, StateAt(c, started, history), t, p);
  }

  lemma CalmTurn(c: Config, started: Time, p: PodId, kind: TaskType, entries: seq<Entry>, history: seq<Timed>, env: Surroundings, k: nat)
    requires entries != [] && Uncapped(c, StateAt(c, started, history), p, kind, entries) && env.others == []
    ensures var s, turn := StateAt(c, started, history), TurnFrom(c, started, p, kind, entries[0], history, env, k);
      var n := StateAt(c, started, turn.history);
      s.now < n.now && Uncapped(c, n, p, kind, entries[1..]) && SameOthers(s, n, p, entries[0].id) &&
      (turn.taken <==> (p, entries[0].name) in c.registered && entries[0].id !in s.pods[p].inFlight &&
                       entries[0].id in s.rows && LockFree(s.rows[entries[0].id], n.now))
  {
    var s, entry := StateAt(c, started, history), entries[0];
    var t := s.now + 1 + env.Delay(k);
    var looked := history + [Timed(t, Inspect(p))];
    CalmLook(c, started, p, kind, entries, history, t);
    if !Refused(c, p, s.pods[p], kind, entry) {
      var u := t + 1 + env.Delay(k + 2);
      UncappedTurn(c, started, p, kind, entry, history, env, k, t, u);
      CalmLock(c, started, p, entry, looked, u);
      Tail(entries);
    }
  }

  lemma Tail(entries: seq<Entry>)
    requires entries != []
    ensures forall i :: 0 <= i < |entries| - 1 ==> entries[1..][i] == entries[i + 1]
    ensures forall e :: e in entries[1..] ==> e in entries
  {
  }

  lemma UncappedTurn(c: Config, started: Time, p: PodId, kind: TaskType, entry: Entry, history: seq<Timed>, env: Surroundings, k: nat, t: Time, u: Time)
    requires var s, looked := StateAt(c, started, history), history + [Timed(t, Inspect(p))];
      env.others == [] && t == s.now + 1 + env.Delay(k) && u == t + 1 + env.Delay(k + 2) && StateAt(c, started, looked).now == t &&
      p in s.pods && !Refused(c, p, s.pods[p], kind, entry) && (kind == Oneshot ==> entry.name !in c.caps)
    ensures var looked := history + [Timed(t, Inspect(p))]; var m := StateAt(c, started, looked);
      TurnFrom(c, started, p, kind, entry, history, env, k) ==
        Turn(looked + [Timed(u, Acquire(p))], entry.id in m.rows && LockFree(m.rows[entry.id], u))
  {
    var looked := history + [Timed(t, Inspect(p))];
    assert looked + [] == looked;
  }

  /**
   A tick that nothing else disturbs launches every listed row that was free at its listing, if
   its handler is registered here and has no cap and the row is not in flight already; and it
   launches nothing that these tests forbid or that is still locked at the end.
   */
  lemma {:induction false} CalmTickLaunches(c: Config, started: Time, p: PodId, kind: TaskType, entries: seq<Entry>, history: seq<Timed>,
                                            env: Surroundings, k: nat, e: Entry)
    requires Uncapped(c, StateAt(c, started, history), p, kind, entries) && env.others == [] && e in entries
    ensures var s, turns := StateAt(c, started, history), TurnsFrom(c, started, p, kind, entries, history, env, k);
      var looksFree := (p, e.name) in c.registered && e.id !in s.pods[p].inFlight && e.id in s.rows;
      (looksFree && LockFree(s.rows[e.id], s.now) ==> e.id in turns.launched) &&
      (e.id in turns.launched ==> looksFree && LockFree(s.rows[e.id], StateAt(c, started, turns.history).now))
    decreases |entries|
  {
    CalmTurn(c, started, p, kind, entries, history, env, k);
    var turn := TurnFrom(c, started, p, kind, entries[0], history, env, k);
    LaunchesOnly(c, started, p, kind, entries[1..], turn.history, env, k + 3);
    if e != entries[0] {
      CalmTickLaunches(c, started, p, kind, entries[1..], turn.history, env, k + 3, e);
    }
  }

  lemma {:induction false} LaunchesOnly(c: Config, started: Time, p: PodId, kind: TaskType, entries: seq<Entry>, history: seq<Timed>,
                                        env: Surroundings, k: nat)
    requires Uncapped(c, StateAt(c, started, history), p, kind, entries) && env.others == []
    ensures var turns := TurnsFrom(c, started, p, kind, entries, history, env, k);
      (forall id :: id in turns.launched ==> id in Ids(entries)) && StateAt(c, started, history).now <= StateAt(c, started, turns.history).now
    decreases |entries|
  {
    if entries != [] {
      CalmTurn(c, started, p, kind, entries, history, env, k);
      var turn := TurnFrom(c, started, p, kind, entries[0], history, env, k);
      LaunchesOnly(c, started, p, kind, entries[1..], turn.history, env, k + 3);
      forall i | 0 <= i < |entries| - 1 ensures entries[1..][i].id in Ids(entries) {
        assert entries[i + 1] == entries[1..][i];
      }
    }
  }
}
