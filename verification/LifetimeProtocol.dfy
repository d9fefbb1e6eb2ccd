/**
 Everything that borrows a long permit, and the close that ends it all, as a state machine.
 Between two awaits the code runs undisturbed, so each such stretch is one event; failure and
 cancellation at an await are the failing events. An event that is not enabled changes nothing.

 A subscription has a lock. A monitor has none: tasks may enter and close it in any way they
 like, and what holds then depends on what they refrain from.
 */
module LifetimeProtocol {
  import opened Wrappers
  import opened Lifetime

  type ContextId = nat

  /** `with operation()`, or a command's whole execution; a blocking one holds a permit. */
  datatype Context = Context(task: TaskId, blocking: bool)

  datatype Kind = Subscription | Monitor

  /** A task inside the entry of a handle: waiting for the pool, for the native entry, or for the close after its failure. */
  datatype Phase = Opening | Entering | Closing

  /**
   A subscription or monitor. `native`: it has its native object; `closers`: calls of aclose
   that took the native object and must still release; `byClient`: so must the client's close.
   `held` is history: the permits taken for this handle less those given back.
   */
  datatype Handle = Handle(kind: Kind, native: bool, entries: map<ContextId, Phase>, closers: nat, byClient: bool, held: int)

  datatype Close = NotClosing | Started(initiator: TaskId) | Draining(waiting: set<TaskId>) | ClosingResources(pending: set<ResourceId>) | Finished

  datatype State = State(core: Core, contexts: map<ContextId, Context>, handles: map<ResourceId, Handle>, close: Close)

  datatype Event =
    | Enter(ctx: ContextId, task: TaskId, blocking: bool)
    | Exit(ctx: ContextId)
    | Create(id: ResourceId, kind: Kind)
    | Open(ctx: ContextId, id: ResourceId)
    | Opened(ctx: ContextId, id: ResourceId)
    | OpenFails(ctx: ContextId, id: ResourceId)
    | EnterDone(ctx: ContextId, id: ResourceId)
    | EnterFails(ctx: ContextId, id: ResourceId)
    | EndFailed(ctx: ContextId, id: ResourceId)
    | BeginClose(id: ResourceId)
    | EndClose(id: ResourceId)
    | StartClose(task: TaskId)
    | StartDrain
    | EndDrain
    | CloseResource(id: ResourceId)
    | EndClientClose(id: ResourceId)
    | FinishClose

  /** What the tasks that share a monitor refrain from. */
  datatype Discipline = Discipline(
    oneEntry: bool,              // entering it while another task does
    noCloseDuringEntry: bool,    // closing it while a task enters it
    noEntryDuringClose: bool,    // entering it while it is being closed
    oneClose: bool)              // closing it, or the client, while it is being closed

  function Start(maximum: nat): State {
    State(Core(maximum, 0, false, {}, map[]), map[], map[], NotClosing)
  }

  /** Nobody has a subscription's lock. */
  predicate Unlocked(handle: Handle) {
    handle.entries == map[] && handle.closers == 0 && !handle.byClient
  }

  predicate Inside(s: State, ctx: ContextId, id: ResourceId, phase: Phase) {
    id in s.handles && ctx in s.handles[id].entries && s.handles[id].entries[ctx] == phase
  }

  predicate MayOpen(d: Discipline, handle: Handle) {
    match handle.kind
    case Subscription => Unlocked(handle)
    case Monitor => (d.oneEntry ==> handle.entries == map[]) && (d.noEntryDuringClose ==> handle.closers == 0 && !handle.byClient)
  }

  predicate MayClose(d: Discipline, handle: Handle) {
    match handle.kind
    case Subscription => Unlocked(handle)
    case Monitor => (d.noCloseDuringEntry ==> handle.entries == map[]) && (d.oneClose ==> handle.closers == 0 && !handle.byClient)
  }

  predicate Enabled(d: Discipline, s: State, e: Event) {
    match e
    case Enter(ctx, _, _) => ctx !in s.contexts
    case Exit(ctx) =>
      ctx in s.contexts && Depth(s.core, s.contexts[ctx].task) >= 1 && forall id :: id in s.handles ==> ctx !in s.handles[id].entries
    case Create(id, _) => id !in s.handles && !s.core.closed
    case Open(ctx, id) =>
      ctx in s.contexts && id in s.handles && MayOpen(d, s.handles[id]) && forall x :: x in s.handles ==> ctx !in s.handles[x].entries
    case Opened(ctx, id) => Inside(s, ctx, id, Opening)
    case OpenFails(ctx, id) => Inside(s, ctx, id, Opening)
    case EnterDone(ctx, id) => Inside(s, ctx, id, Entering)
    case EnterFails(ctx, id) => Inside(s, ctx, id, Entering)
    case EndFailed(ctx, id) => Inside(s, ctx, id, Closing)
    case BeginClose(id) => id in s.handles && MayClose(d, s.handles[id])
    case EndClose(id) => id in s.handles && s.handles[id].closers >= 1
    case StartClose(task) => s.close.NotClosing? && task !in s.core.tasks
    case StartDrain => s.close.Started?
    case EndDrain => s.close.Draining? && forall t :: t in s.close.waiting ==> t !in s.core.tasks
    case CloseResource(id) => s.close.ClosingResources? && id in s.close.pending && id in s.handles && MayClose(d, s.handles[id])
    case EndClientClose(id) => id in s.handles && s.handles[id].byClient
    case FinishClose => s.close.ClosingResources? && s.close.pending == {} && forall id :: id in s.handles ==> !s.handles[id].byClient
  }

  function AfterEnter(s: State, ctx: ContextId, task: TaskId, blocking: bool): State {
    match Entered(s.core, task)
    case Err(_) => s
    case Ok(core) =>
      if !blocking then s.(core := core, contexts := s.contexts[ctx := Context(task, false)])
      else match Acquired(core)
        case Err(_) => s
        case Ok(granted) => s.(core := granted, contexts := s.contexts[ctx := Context(task, true)])
  }

  function AfterExit(s: State, ctx: ContextId): State
    requires ctx in s.contexts && Depth(s.core, s.contexts[ctx].task) >= 1
  {
    var core := if s.contexts[ctx].blocking then Released(s.core) else s.core;
    s.(core := Exited(core, s.contexts[ctx].task), contexts := s.contexts - {ctx})
  }

  function SetHandle(s: State, id: ResourceId, handle: Handle): State {
    s.(handles := s.handles[id := handle])
  }

  function Discard(s: State, id: ResourceId): State {
    s.(core := s.core.(resources := s.core.resources - {id}))
  }

  function InPhase(handle: Handle, ctx: ContextId, phase: Phase): Handle {
    handle.(entries := handle.entries[ctx := phase])
  }

  function Outside(handle: Handle, ctx: ContextId): Handle {
    handle.(entries := handle.entries - {ctx})
  }

  /** One permit of this handle goes back. */
  function GivesBack(s: State, id: ResourceId, handle: Handle): State {
    SetHandle(s, id, handle.(held := handle.held - 1)).(core := Released(s.core))
  }

  /** Check that the client is open; a handle that already has its native object needs no second permit. */
  function AfterOpen(s: State, ctx: ContextId, id: ResourceId): State
    requires id in s.handles
  {
    var handle := s.handles[id];
    if s.core.closed || handle.native then s
    else match Acquired(s.core)
      case Err(_) => s
      case Ok(core) => SetHandle(s, id, InPhase(handle, ctx, Opening).(held := handle.held + 1)).(core := core)
  }

  /** The native object is there; a monitor is still to be entered. */
  function AfterOpened(s: State, ctx: ContextId, id: ResourceId): State
    requires Inside(s, ctx, id, Opening)
  {
    var handle := s.handles[id].(native := true);
    SetHandle(s, id, if handle.kind == Monitor then InPhase(handle, ctx, Entering) else Outside(handle, ctx)).(
      core := s.core.(resources := s.core.resources + {id}))
  }

  /** The `except` block of an entry: close the native object there is, whoever made it; without one, release. */
  function AfterFailure(s: State, ctx: ContextId, id: ResourceId): State
    requires id in s.handles
  {
    var handle := s.handles[id];
    if handle.native then SetHandle(s, id, InPhase(handle, ctx, Closing).(native := false))
    else GivesBack(s, id, Outside(handle, ctx))
  }

  function AfterBeginClose(s: State, id: ResourceId): State
    requires id in s.handles
  {
    var handle := s.handles[id];
    if handle.native then SetHandle(s, id, handle.(native := false, closers := handle.closers + 1)) else Discard(s, id)
  }

  function AfterCloseResource(s: State, id: ResourceId): State
    requires id in s.handles && s.close.ClosingResources?
  {
    var handle := s.handles[id];
    var n := if handle.native then SetHandle(s, id, handle.(native := false, byClient := true)) else Discard(s, id);
    n.(close := ClosingResources(s.close.pending - {id}))
  }

  function Apply(d: Discipline, s: State, e: Event): State
    requires Enabled(d, s, e)
  {
    match e
    case Enter(ctx, task, blocking) => AfterEnter(s, ctx, task, blocking)
    case Exit(ctx) => AfterExit(s, ctx)
    case Create(id, kind) => SetHandle(s, id, Handle(kind, false, map[], 0, false, 0))
    case Open(ctx, id) => AfterOpen(s, ctx, id)
    case Opened(ctx, id) => AfterOpened(s, ctx, id)
    case OpenFails(ctx, id) => AfterFailure(s, ctx, id)
    case EnterDone(ctx, id) => SetHandle(s, id, Outside(s.handles[id], ctx))
    case EnterFails(ctx, id) => AfterFailure(s, ctx, id)
    case EndFailed(ctx, id) => Discard(GivesBack(s, id, Outside(s.handles[id], ctx)), id)
    case BeginClose(id) => AfterBeginClose(s, id)
    case EndClose(id) => Discard(GivesBack(s, id, s.handles[id].(closers := s.handles[id].closers - 1)), id)
    case StartClose(task) => s.(core := s.core.(closed := true), close := Started(task))
    case StartDrain => s.(close := Draining(s.core.tasks.Keys - {s.close.initiator}))
    case EndDrain => s.(close := ClosingResources(s.core.resources))
    case CloseResource(id) => AfterCloseResource(s, id)
    case EndClientClose(id) => Discard(GivesBack(s, id, s.handles[id].(byClient := false)), id)
    case FinishClose => s.(close := Finished)
  }

  function Step(d: Discipline, s: State, e: Event): State {
    if Enabled(d, s, e) then Apply(d, s, e) else s
  }

  function Exec(d: Discipline, s: State, run: seq<Event>): State
    decreases |run|
  {
    if run == [] then s else Step(d, Exec(d, s, run[..|run| - 1]), run[|run| - 1])
  }

  lemma ExecSnoc(d: Discipline, s: State, run: seq<Event>, e: Event)
    ensures Exec(d, s, run + [e]) == Step(d, Exec(d, s, run), e)
  {
    assert (run + [e])[..|run + [e]| - 1] == run;
  }

  // ---------- permits ----------

  function Operations(s: State, task: TaskId): set<ContextId> {
    set ctx | ctx in s.contexts && s.contexts[ctx].task == task
  }

  function BlockingContexts(s: State): set<ContextId> {
    set ctx | ctx in s.contexts && s.contexts[ctx].blocking
  }

  /** Entries that hold a permit of their own, rather than that of the native object. */
  function OwnPermits(entries: map<ContextId, Phase>): set<ContextId> {
    set ctx | ctx in entries && !entries[ctx].Entering?
  }

  function Ones(b: bool): nat {
    if b then 1 else 0
  }

  /** The permits that a handle has a use for. */
  function InUse(handle: Handle): nat {
    |OwnPermits(handle.entries)| + Ones(handle.native) + handle.closers + Ones(handle.byClient)
  }

  ghost function Total(m: map<ResourceId, int>): int {
    if m == map[] then 0 else
      var id :| id in m;
      m[id] + Total(m - {id})
  }

  function HeldOf(s: State): map<ResourceId, int> {
    map id | id in s.handles :: s.handles[id].held
  }

  function InUseOf(s: State): map<ResourceId, int> {
    map id | id in s.handles :: InUse(s.handles[id])
  }

  lemma {:induction false} TotalWithout(m: map<ResourceId, int>, id: ResourceId)
    requires id in m
    ensures Total(m) == m[id] + Total(m - {id})
    decreases |m|
  {
    var x :| x in m && Total(m) == m[x] + Total(m - {x});
    if x != id {
      TotalWithout(m - {x}, id);
      TotalWithout(m - {id}, x);
      assert m - {x} - {id} == m - {id} - {x};
    }
  }

  lemma TotalUpdated(m: map<ResourceId, int>, id: ResourceId, v: int)
    ensures Total(m[id := v]) == Total(m) + v - if id in m then m[id] else 0
  {
    TotalWithout(m[id := v], id);
    assert m[id := v] - {id} == m - {id};
    if id in m {
      TotalWithout(m, id);
    } else {
      assert m - {id} == m;
    }
  }

  lemma {:induction false} TotalIsNatural(m: map<ResourceId, int>)
    requires forall id :: id in m ==> m[id] >= 0
    ensures Total(m) >= 0
    decreases |m|
  {
    if m != map[] {
      var id :| id in m && Total(m) == m[id] + Total(m - {id});
      TotalIsNatural(m - {id});
    }
  }

  // ---------- what every run keeps, without any discipline ----------

  predicate CloseBase(s: State) {
    && (s.close.NotClosing? <==> !s.core.closed)
    && match s.close
       case NotClosing => true
       case Started(initiator) => initiator !in s.core.tasks
       case Draining(waiting) => s.core.tasks.Keys <= waiting
       case ClosingResources(pending) => s.contexts == map[] && pending <= s.handles.Keys
       case Finished => s.contexts == map[]
  }

  predicate HandleBase(s: State, id: ResourceId, handle: Handle) {
    && (forall ctx :: ctx in handle.entries ==> ctx in s.contexts)
    && (handle.byClient ==> s.close.ClosingResources? && id !in s.close.pending)
  }

  ghost predicate Base(s: State) {
    && s.core.longInUse == |BlockingContexts(s)| + Total(HeldOf(s)) && s.core.longInUse <= s.core.maximum
    && (forall task :: Depth(s.core, task) == |Operations(s, task)|)
    && (forall task :: task in s.core.tasks ==> s.core.tasks[task] >= 1)
    && (forall id :: id in s.handles ==> HandleBase(s, id, s.handles[id]))
    && s.core.resources <= s.handles.Keys && CloseBase(s)
  }

  lemma ContextAdded(s: State, n: State, ctx: ContextId)
    requires ctx !in s.contexts && ctx in n.contexts && n.contexts == s.contexts[ctx := n.contexts[ctx]]
    ensures |BlockingContexts(n)| == |BlockingContexts(s)| + Ones(n.contexts[ctx].blocking)
    ensures forall task :: |Operations(n, task)| == |Operations(s, task)| + Ones(task == n.contexts[ctx].task)
  {
    if n.contexts[ctx].blocking {
      assert BlockingContexts(n) == BlockingContexts(s) + {ctx};
    } else {
      assert BlockingContexts(n) == BlockingContexts(s);
    }
    forall task ensures |Operations(n, task)| == |Operations(s, task)| + Ones(task == n.contexts[ctx].task) {
      OperationAdded(s, n, ctx, task);
    }
  }

  lemma OperationAdded(s: State, n: State, ctx: ContextId, task: TaskId)
    requires ctx !in s.contexts && ctx in n.contexts && n.contexts == s.contexts[ctx := n.contexts[ctx]]
    ensures |Operations(n, task)| == |Operations(s, task)| + Ones(task == n.contexts[ctx].task)
  {
    if task == n.contexts[ctx].task {
      assert Operations(n, task) == Operations(s, task) + {ctx};
    } else {
      assert Operations(n, task) == Operations(s, task);
    }
  }

  lemma EnterKeepsBase(d: Discipline, s: State, e: Event)
    requires Base(s) && e.Enter? && Enabled(d, s, e)
    ensures Base(Step(d, s, e))
  {
    var n := Step(d, s, e);
    if n != s {
      ContextAdded(s, n, e.ctx);
      assert HeldOf(n) == HeldOf(s);
      forall id | id in n.handles ensures HandleBase(n, id, n.handles[id]) {
        assert HandleBase(s, id, s.handles[id]);
      }
    }
  }

  lemma ExitKeepsBase(d: Discipline, s: State, e: Event)
    requires Base(s) && e.Exit? && Enabled(d, s, e)
    ensures Base(Step(d, s, e))
  {
    var n := Step(d, s, e);
    assert s.contexts == n.contexts[e.ctx := s.contexts[e.ctx]];
    ContextAdded(n, s, e.ctx);
    assert HeldOf(n) == HeldOf(s);
    forall id | id in n.handles ensures HandleBase(n, id, n.handles[id]) {
      assert HandleBase(s, id, s.handles[id]);
    }
  }

  /** One handle moves, and the permits in use with it. */
  ghost predicate Moves(s: State, n: State, id: ResourceId) {
    && id in n.handles && n.handles == s.handles[id := n.handles[id]] && n.contexts == s.contexts
    && n.core == s.core.(longInUse := n.core.longInUse, resources := n.core.resources) && n.core.resources <= n.handles.Keys
    && n.core.longInUse == s.core.longInUse + n.handles[id].held - (if id in s.handles then s.handles[id].held else 0) <= s.core.maximum
    && (n.close == s.close || (s.close.ClosingResources? && n.close.ClosingResources? && n.close.pending <= s.close.pending))
    && HandleBase(n, id, n.handles[id])
  }

  lemma MoveKeepsBase(s: State, n: State, id: ResourceId)
    requires Base(s) && Moves(s, n, id)
    ensures Base(n)
  {
    assert HeldOf(n) == HeldOf(s)[id := n.handles[id].held];
    TotalUpdated(HeldOf(s), id, n.handles[id].held);
    assert BlockingContexts(n) == BlockingContexts(s);
    forall task ensures Depth(n.core, task) == |Operations(n, task)| {
      assert Operations(n, task) == Operations(s, task);
    }
    forall x | x in n.handles ensures HandleBase(n, x, n.handles[x]) {
      if x != id {
        assert HandleBase(s, x, s.handles[x]);
      }
    }
  }

  predicate HandleEvent(e: Event) {
    e.Create? || e.Open? || e.Opened? || e.OpenFails? || e.EnterDone? || e.EnterFails? || e.EndFailed? || e.BeginClose? || e.EndClose? ||
    e.CloseResource? || e.EndClientClose?
  }

  predicate EntryEvent(e: Event) {
    e.Open? || e.Opened? || e.OpenFails? || e.EnterDone? || e.EnterFails? || e.EndFailed?
  }

  lemma HandleMoves(d: Discipline, s: State, e: Event)
    requires Base(s) && HandleEvent(e) && Enabled(d, s, e)
    ensures Step(d, s, e) == s || Moves(s, Step(d, s, e), e.id)
  {
    if e.id in s.handles {
      assert HandleBase(s, e.id, s.handles[e.id]);
      assert s.handles == s.handles[e.id := s.handles[e.id]];
    }
    if EntryEvent(e) {
      EntryMoves(d, s, e);
    }
  }

  lemma EntryMoves(d: Discipline, s: State, e: Event)
    requires Base(s) && EntryEvent(e) && Enabled(d, s, e) && HandleBase(s, e.id, s.handles[e.id])
    ensures Step(d, s, e) == s || Moves(s, Step(d, s, e), e.id)
  {
  }

  lemma DrainedContexts(s: State)
    requires Base(s) && s.core.tasks == map[]
    ensures s.contexts == map[]
  {
    forall ctx | ctx in s.contexts ensures s.contexts[ctx].task in s.core.tasks {
      assert ctx in Operations(s, s.contexts[ctx].task);
    }
  }

  lemma CloseEventKeepsBase(d: Discipline, s: State, e: Event)
    requires Base(s) && Enabled(d, s, e) && (e.StartClose? || e.StartDrain? || e.EndDrain? || e.FinishClose?)
    ensures Base(Step(d, s, e))
  {
    var n := Step(d, s, e);
    assert BlockingContexts(n) == BlockingContexts(s) && HeldOf(n) == HeldOf(s);
    forall task ensures Depth(n.core, task) == |Operations(n, task)| {
      assert Operations(n, task) == Operations(s, task);
    }
    if e.EndDrain? {
      DrainedContexts(s);
    }
    forall x | x in n.handles ensures HandleBase(n, x, n.handles[x]) {
      assert HandleBase(s, x, s.handles[x]);
    }
  }

  lemma StepKeepsBase(d: Discipline, s: State, e: Event)
    requires Base(s)
    ensures Base(Step(d, s, e)) && Step(d, s, e).core.maximum == s.core.maximum
  {
    if Enabled(d, s, e) {
      if e.Enter? {
        EnterKeepsBase(d, s, e);
      } else if e.Exit? {
        ExitKeepsBase(d, s, e);
      } else if HandleEvent(e) {
        HandleMoves(d, s, e);
        if Step(d, s, e) != s {
          MoveKeepsBase(s, Step(d, s, e), e.id);
        }
      } else {
        CloseEventKeepsBase(d, s, e);
      }
    }
  }

  lemma {:induction false} BaseAlways(d: Discipline, maximum: nat, run: seq<Event>)
    ensures Base(Exec(d, Start(maximum), run)) && Exec(d, Start(maximum), run).core.maximum == maximum
    decreases |run|
  {
    if run != [] {
      BaseAlways(d, maximum, run[..|run| - 1]);
      StepKeepsBase(d, Exec(d, Start(maximum), run[..|run| - 1]), run[|run| - 1]);
    }
  }

  // ---------- the bound ----------

  predicate HasEntering(handle: Handle) {
    exists ctx :: ctx in handle.entries && handle.entries[ctx].Entering?
  }

  /** What tasks may still give back for the handle: each entry and each close once, and a native object that no entry answers for. */
  function Claims(handle: Handle): nat {
    |handle.entries| + handle.closers + Ones(handle.byClient) + Ones(handle.native && !HasEntering(handle))
  }

  ghost predicate Covered(s: State) {
    forall id :: id in s.handles ==> Claims(s.handles[id]) <= s.handles[id].held
  }

  /** A monitor is not entered twice at once if tasks refrain from it, or if there is only one permit. */
  predicate OneAtATime(d: Discipline, s: State) {
    d.oneEntry || s.core.maximum <= 1
  }

  predicate NoCloseMeanwhile(d: Discipline, s: State) {
    d.noCloseDuringEntry || s.core.maximum == 0
  }

  lemma PhaseSet(handle: Handle, ctx: ContextId, phase: Phase)
    ensures |InPhase(handle, ctx, phase).entries| == |handle.entries| + Ones(ctx !in handle.entries)
    ensures phase.Entering? ==> HasEntering(InPhase(handle, ctx, phase))
    ensures HasEntering(handle) && (ctx !in handle.entries || !handle.entries[ctx].Entering?) ==> HasEntering(InPhase(handle, ctx, phase))
  {
    var n := InPhase(handle, ctx, phase);
    assert n.entries.Keys == handle.entries.Keys + {ctx};
    assert n.entries[ctx] == phase;
    if HasEntering(handle) {
      var x :| x in handle.entries && handle.entries[x].Entering?;
      assert x != ctx ==> n.entries[x].Entering?;
    }
  }

  lemma EntryLeft(handle: Handle, ctx: ContextId)
    requires ctx in handle.entries
    ensures |Outside(handle, ctx).entries| == |handle.entries| - 1
    ensures HasEntering(handle) && !handle.entries[ctx].Entering? ==> HasEntering(Outside(handle, ctx))
  {
    var n := Outside(handle, ctx);
    assert n.entries.Keys == handle.entries.Keys - {ctx};
    if HasEntering(handle) {
      var x :| x in handle.entries && handle.entries[x].Entering?;
      assert x != ctx ==> n.entries[x].Entering?;
    }
  }

  lemma EntryKeepsCovered(d: Discipline, s: State, e: Event)
    requires Covered(s) && EntryEvent(e) && Enabled(d, s, e) && Step(d, s, e) != s
    ensures Claims(Step(d, s, e).handles[e.id]) <= Step(d, s, e).handles[e.id].held
  {
    var handle := s.handles[e.id];
    assert Claims(handle) <= handle.held;
    match e
    case Open(ctx, _) => PhaseSet(handle, ctx, Opening);
    case Opened(ctx, _) =>
      PhaseSet(handle, ctx, Entering);
      EntryLeft(handle, ctx);
    case EnterDone(ctx, _) => EntryLeft(handle, ctx);
    case EndFailed(ctx, _) => EntryLeft(handle, ctx);
    case OpenFails(ctx, _) => FailureKeepsCovered(s, ctx, e.id);
    case EnterFails(ctx, _) => FailureKeepsCovered(s, ctx, e.id);
  }

  lemma FailureKeepsCovered(s: State, ctx: ContextId, id: ResourceId)
    requires id in s.handles && ctx in s.handles[id].entries && Claims(s.handles[id]) <= s.handles[id].held
    ensures var n := AfterFailure(s, ctx, id); Claims(n.handles[id]) <= n.handles[id].held
  {
    PhaseSet(s.handles[id], ctx, Closing);
    EntryLeft(s.handles[id], ctx);
  }

  /** While no permit is in use, nobody is inside the entry or the close of anything. */
  lemma IdleHandle(s: State, id: ResourceId)
    requires Base(s) && Covered(s) && id in s.handles && s.core.longInUse <= 0
    ensures Claims(s.handles[id]) == 0 && s.handles[id].entries == map[]
  {
    var m := HeldOf(s);
    forall x | x in m ensures m[x] >= 0 {
      assert Claims(s.handles[x]) <= s.handles[x].held;
    }
    TotalIsNatural(m - {id});
    TotalWithout(m, id);
    assert Claims(s.handles[id]) <= m[id];
  }

  lemma CloseKeepsCovered(d: Discipline, s: State, e: Event)
    requires Base(s) && Covered(s) && NoCloseMeanwhile(d, s)
    requires HandleEvent(e) && !EntryEvent(e) && Enabled(d, s, e) && Step(d, s, e) != s
    ensures e.id in Step(d, s, e).handles ==> Claims(Step(d, s, e).handles[e.id]) <= Step(d, s, e).handles[e.id].held
  {
    if e.BeginClose? && s.core.maximum == 0 {
      IdleHandle(s, e.id);
    }
    if e.id in s.handles {
      assert Claims(s.handles[e.id]) <= s.handles[e.id].held;
    }
    if e.CloseResource? {
      NoEntries(s, e.id);
    }
  }

  lemma OneHandleMoves(d: Discipline, s: State, e: Event)
    ensures if HandleEvent(e) then forall id :: id != e.id && id in Step(d, s, e).handles ==> id in s.handles && Step(d, s, e).handles[id] == s.handles[id]
            else Step(d, s, e).handles == s.handles
  {
  }

  lemma StepKeepsCovered(d: Discipline, s: State, e: Event)
    requires Base(s) && Covered(s) && NoCloseMeanwhile(d, s)
    ensures Covered(Step(d, s, e))
  {
    OneHandleMoves(d, s, e);
    if HandleEvent(e) && Enabled(d, s, e) && Step(d, s, e) != s {
      if EntryEvent(e) {
        EntryKeepsCovered(d, s, e);
      } else {
        CloseKeepsCovered(d, s, e);
      }
    }
  }

  lemma NoEntries(s: State, id: ResourceId)
    requires Base(s) && s.contexts == map[] && id in s.handles
    ensures s.handles[id].entries == map[]
  {
    assert HandleBase(s, id, s.handles[id]);
  }

  lemma {:induction false} CoveredAlways(d: Discipline, maximum: nat, run: seq<Event>)
    requires NoCloseMeanwhile(d, Start(maximum))
    ensures Covered(Exec(d, Start(maximum), run))
    decreases |run|
  {
    if run != [] {
      var s := Exec(d, Start(maximum), run[..|run| - 1]);
      CoveredAlways(d, maximum, run[..|run| - 1]);
      BaseAlways(d, maximum, run[..|run| - 1]);
      StepKeepsCovered(d, s, run[|run| - 1]);
    }
  }

  /** The permits in use lie between the blocking executions and the maximum. */
  predicate WithinBounds(s: State) {
    0 <= |BlockingContexts(s)| <= s.core.longInUse <= s.core.maximum
  }

  lemma CoveredIsBounded(s: State)
    requires Base(s) && Covered(s)
    ensures WithinBounds(s)
  {
    forall id | id in s.handles ensures HeldOf(s)[id] >= 0 {
      assert Claims(s.handles[id]) <= s.handles[id].held;
    }
    TotalIsNatural(HeldOf(s));
  }

  // ---------- conservation ----------

  /** One entry at a time; it holds the native object, or a permit of its own. */
  predicate Exact(handle: Handle) {
    && handle.held == InUse(handle)
    && forall ctx :: ctx in handle.entries ==> handle.entries == map[ctx := handle.entries[ctx]] && (handle.entries[ctx].Entering? <==> handle.native)
  }

  ghost predicate AllExact(s: State) {
    forall id :: id in s.handles ==> Exact(s.handles[id])
  }

  lemma OneEntry(handle: Handle, ctx: ContextId)
    requires ctx in handle.entries && handle.entries == map[ctx := handle.entries[ctx]]
    ensures |OwnPermits(handle.entries)| == Ones(!handle.entries[ctx].Entering?) && Outside(handle, ctx).entries == map[]
    ensures forall phase :: InPhase(handle, ctx, phase).entries == map[ctx := phase] && |OwnPermits(InPhase(handle, ctx, phase).entries)| == Ones(phase != Entering)
  {
    assert OwnPermits(handle.entries) == if handle.entries[ctx].Entering? then {} else {ctx};
    forall phase
      ensures InPhase(handle, ctx, phase).entries == map[ctx := phase] && |OwnPermits(InPhase(handle, ctx, phase).entries)| == Ones(phase != Entering)
    {
      FirstEntry(handle.(entries := map[]), ctx, phase);
      assert InPhase(handle, ctx, phase).entries == map[ctx := phase];
    }
  }

  lemma FirstEntry(handle: Handle, ctx: ContextId, phase: Phase)
    requires handle.entries == map[]
    ensures InPhase(handle, ctx, phase).entries == map[ctx := phase] && |OwnPermits(InPhase(handle, ctx, phase).entries)| == Ones(phase != Entering)
  {
    assert OwnPermits(InPhase(handle, ctx, phase).entries) == if phase == Entering then {} else {ctx};
  }

  lemma EntryKeepsExact(d: Discipline, s: State, e: Event)
    requires Base(s) && Covered(s) && AllExact(s) && OneAtATime(d, s) && EntryEvent(e) && Enabled(d, s, e) && Step(d, s, e) != s
    ensures Exact(Step(d, s, e).handles[e.id])
  {
    if e.Open? {
      OpensAlone(d, s, e);
      OpenKeepsExact(s, e.ctx, e.id);
    } else {
      MoveKeepsExact(d, s, e);
    }
  }

  lemma OpensAlone(d: Discipline, s: State, e: Event)
    requires Base(s) && Covered(s) && OneAtATime(d, s) && e.Open? && Enabled(d, s, e) && Step(d, s, e) != s
    ensures s.handles[e.id].entries == map[] && (s.core.maximum <= 1 ==> Unlocked(s.handles[e.id]))
  {
    if s.core.maximum <= 1 {
      IdleHandle(s, e.id);
    }
  }

  lemma OpenKeepsExact(s: State, ctx: ContextId, id: ResourceId)
    requires id in s.handles && Exact(s.handles[id]) && s.handles[id].entries == map[]
    ensures Exact(AfterOpen(s, ctx, id).handles[id])
  {
    FirstEntry(s.handles[id], ctx, Opening);
  }

  lemma MoveKeepsExact(d: Discipline, s: State, e: Event)
    requires AllExact(s) && EntryEvent(e) && !e.Open? && Enabled(d, s, e)
    ensures Exact(Step(d, s, e).handles[e.id])
  {
    assert Exact(s.handles[e.id]);
    OneEntry(s.handles[e.id], e.ctx);
  }

  lemma CloseKeepsExact(d: Discipline, s: State, e: Event)
    requires Base(s) && Covered(s) && AllExact(s) && NoCloseMeanwhile(d, s)
    requires HandleEvent(e) && !EntryEvent(e) && Enabled(d, s, e) && Step(d, s, e) != s
    ensures e.id in Step(d, s, e).handles ==> Exact(Step(d, s, e).handles[e.id])
  {
    if e.id in s.handles {
      assert Exact(s.handles[e.id]);
    }
    if e.BeginClose? {
      if s.core.maximum == 0 {
        IdleHandle(s, e.id);
      }
      UserCloseKeepsExact(s, e.id);
    } else if e.CloseResource? {
      NoEntries(s, e.id);
      ClientCloseKeepsExact(s, e.id);
    }
  }

  lemma UserCloseKeepsExact(s: State, id: ResourceId)
    requires id in s.handles && Exact(s.handles[id]) && s.handles[id].entries == map[]
    ensures id in AfterBeginClose(s, id).handles && Exact(AfterBeginClose(s, id).handles[id])
  {
  }

  lemma ClientCloseKeepsExact(s: State, id: ResourceId)
    requires Base(s) && id in s.handles && Exact(s.handles[id]) && s.handles[id].entries == map[]
    requires s.close.ClosingResources? && id in s.close.pending
    ensures id in AfterCloseResource(s, id).handles && Exact(AfterCloseResource(s, id).handles[id])
  {
    assert HandleBase(s, id, s.handles[id]);
  }

  lemma StepKeepsExact(d: Discipline, s: State, e: Event)
    requires Base(s) && Covered(s) && AllExact(s) && OneAtATime(d, s) && NoCloseMeanwhile(d, s)
    ensures AllExact(Step(d, s, e))
  {
    OneHandleMoves(d, s, e);
    if HandleEvent(e) && Enabled(d, s, e) && Step(d, s, e) != s {
      if EntryEvent(e) {
        EntryKeepsExact(d, s, e);
      } else {
        CloseKeepsExact(d, s, e);
      }
    }
  }

  lemma {:induction false} ExactAlways(d: Discipline, maximum: nat, run: seq<Event>)
    requires OneAtATime(d, Start(maximum)) && NoCloseMeanwhile(d, Start(maximum))
    ensures AllExact(Exec(d, Start(maximum), run))
    decreases |run|
  {
    if run != [] {
      var s := Exec(d, Start(maximum), run[..|run| - 1]);
      ExactAlways(d, maximum, run[..|run| - 1]);
      BaseAlways(d, maximum, run[..|run| - 1]);
      CoveredAlways(d, maximum, run[..|run| - 1]);
      StepKeepsExact(d, s, run[|run| - 1]);
    }
  }

  /** The permits in use are the blocking executions and what the handles have a use for. */
  ghost predicate Conserved(s: State) {
    s.core.longInUse == |BlockingContexts(s)| + Total(InUseOf(s))
  }

  lemma ExactIsConserved(s: State)
    requires Base(s) && AllExact(s)
    ensures Conserved(s)
  {
    forall id | id in s.handles ensures HeldOf(s)[id] == InUseOf(s)[id] {
      assert Exact(s.handles[id]);
    }
    assert HeldOf(s) == InUseOf(s);
  }

  // ---------- the close ----------

  /** Somebody has a permit that the close must see given back. */
  predicate Holding(handle: Handle) {
    handle.native || handle.closers >= 1 || handle.byClient || exists ctx :: ctx in handle.entries && !handle.entries[ctx].Opening?
  }

  /** One close at a time, after the entries; and the client knows of exactly what holds a permit. */
  predicate Tidy(s: State, id: ResourceId, handle: Handle) {
    && (handle.closers >= 1 || handle.byClient ==> !handle.native && handle.entries == map[])
    && handle.closers + Ones(handle.byClient) <= 1
    && (Holding(handle) <==> id in s.core.resources)
    && (s.close.ClosingResources? && (handle.native || handle.closers >= 1) ==> id in s.close.pending)
    && (s.close.Finished? ==> !handle.native && handle.closers == 0)
  }

  ghost predicate AllTidy(s: State) {
    forall id :: id in s.handles ==> Tidy(s, id, s.handles[id])
  }

  /** No close during a close, and no entry during one. */
  predicate OneCloseAtATime(d: Discipline, s: State) {
    (d.oneClose || s.core.maximum == 0) && (d.noEntryDuringClose || s.core.maximum <= 1)
  }

  ghost predicate Orderly(d: Discipline, s: State) {
    && Base(s) && Covered(s) && AllExact(s) && AllTidy(s)
    && OneAtATime(d, s) && NoCloseMeanwhile(d, s) && OneCloseAtATime(d, s)
  }

  /** What else is there stays as tidy as it was. */
  lemma OthersStayTidy(d: Discipline, s: State, e: Event, id: ResourceId)
    requires Base(s) && AllTidy(s) && HandleEvent(e) && id != e.id && id in Step(d, s, e).handles
    ensures Tidy(Step(d, s, e), id, Step(d, s, e).handles[id])
  {
    OneHandleMoves(d, s, e);
    CloseStays(d, s, e);
    assert Tidy(s, id, s.handles[id]);
  }

  lemma CloseStays(d: Discipline, s: State, e: Event)
    requires HandleEvent(e)
    ensures var n := Step(d, s, e);
      s.core.resources - {e.id} == n.core.resources - {e.id} &&
      (n.close == s.close || (s.close.ClosingResources? && n.close == ClosingResources(s.close.pending - {e.id})))
  {
  }

  lemma EntryKeepsTidy(d: Discipline, s: State, e: Event)
    requires Orderly(d, s) && EntryEvent(e) && Enabled(d, s, e) && Step(d, s, e) != s
    ensures Tidy(Step(d, s, e), e.id, Step(d, s, e).handles[e.id])
  {
    var handle := s.handles[e.id];
    assert Tidy(s, e.id, handle) && HandleBase(s, e.id, handle);
    if e.Open? {
      OpensAlone(d, s, e);
    } else {
      MoveKeepsTidy(d, s, e);
    }
  }

  lemma MoveKeepsTidy(d: Discipline, s: State, e: Event)
    requires Base(s) && AllExact(s) && AllTidy(s) && EntryEvent(e) && !e.Open? && Enabled(d, s, e)
    ensures Tidy(Step(d, s, e), e.id, Step(d, s, e).handles[e.id])
  {
    var handle := s.handles[e.id];
    assert Tidy(s, e.id, handle) && HandleBase(s, e.id, handle) && Exact(handle);
    OneEntry(handle, e.ctx);
  }

  lemma CloseKeepsTidy(d: Discipline, s: State, e: Event)
    requires Orderly(d, s) && HandleEvent(e) && !EntryEvent(e) && Enabled(d, s, e) && Step(d, s, e) != s
    ensures e.id in Step(d, s, e).handles ==> Tidy(Step(d, s, e), e.id, Step(d, s, e).handles[e.id])
  {
    if e.id in s.handles {
      assert Tidy(s, e.id, s.handles[e.id]) && HandleBase(s, e.id, s.handles[e.id]) && Exact(s.handles[e.id]);
      if s.core.maximum == 0 {
        IdleHandle(s, e.id);
      }
    }
    if e.CloseResource? {
      NoEntries(s, e.id);
    }
  }

  lemma StepKeepsTidy(d: Discipline, s: State, e: Event)
    requires Orderly(d, s)
    ensures AllTidy(Step(d, s, e))
  {
    var n := Step(d, s, e);
    if HandleEvent(e) && Enabled(d, s, e) && n != s {
      forall id | id in n.handles ensures Tidy(n, id, n.handles[id]) {
        if id != e.id {
          OthersStayTidy(d, s, e, id);
        } else if EntryEvent(e) {
          EntryKeepsTidy(d, s, e);
        } else {
          CloseKeepsTidy(d, s, e);
        }
      }
    } else if n != s {
      BarrierKeepsTidy(d, s, e);
    }
  }

  lemma BarrierKeepsTidy(d: Discipline, s: State, e: Event)
    requires Base(s) && AllTidy(s) && !HandleEvent(e) && Enabled(d, s, e)
    ensures AllTidy(Step(d, s, e))
  {
    var n := Step(d, s, e);
    forall id | id in n.handles ensures Tidy(n, id, n.handles[id]) {
      assert Tidy(s, id, s.handles[id]) && HandleBase(s, id, s.handles[id]);
    }
  }

  lemma {:induction false} OrderlyAlways(d: Discipline, maximum: nat, run: seq<Event>)
    requires OneAtATime(d, Start(maximum)) && NoCloseMeanwhile(d, Start(maximum)) && OneCloseAtATime(d, Start(maximum))
    ensures Orderly(d, Exec(d, Start(maximum), run))
    decreases |run|
  {
    BaseAlways(d, maximum, run);
    CoveredAlways(d, maximum, run);
    ExactAlways(d, maximum, run);
    if run != [] {
      OrderlyAlways(d, maximum, run[..|run| - 1]);
      StepKeepsTidy(d, Exec(d, Start(maximum), run[..|run| - 1]), run[|run| - 1]);
    }
  }

  // ---------- what happens without a discipline ----------

  ghost predicate Reached(d: Discipline, maximum: nat, s: State) {
    exists run :: s == Exec(d, Start(maximum), run)
  }

  lemma Next(d: Discipline, maximum: nat, s: State, e: Event, n: State)
    requires Reached(d, maximum, s) && n == Step(d, s, e)
    ensures Reached(d, maximum, n)
  {
    var run :| s == Exec(d, Start(maximum), run);
    ExecSnoc(d, Start(maximum), run, e);
  }

  /** Operations, and the depths of the tasks that are inside them. */
  datatype Crowd = Crowd(contexts: map<ContextId, Context>, tasks: map<TaskId, nat>)

  const NOBODY: Crowd := Crowd(map[], map[])

  /** One more operation, in a task of its own. */
  function With(inside: Crowd, ctx: ContextId): Crowd {
    Crowd(inside.contexts[ctx := Context(ctx, false)], inside.tasks[ctx := 1])
  }

  /** One monitor, shared by the tasks that are inside these operations. */
  function Shared(maximum: nat, used: int, resources: set<ResourceId>, inside: Crowd, monitor: Handle): State {
    State(Core(maximum, used, false, resources, inside.tasks), inside.contexts, map[0 := monitor], NotClosing)
  }

  const FRESH: Handle := Handle(Monitor, false, map[], 0, false, 0)

  lemma Created(d: Discipline, maximum: nat)
    ensures Reached(d, maximum, Shared(maximum, 0, {}, NOBODY, FRESH))
  {
    var s := Start(maximum);
    assert s == Exec(d, s, []);
    Next(d, maximum, s, Create(0, Monitor), Shared(maximum, 0, {}, NOBODY, FRESH));
  }

  lemma GoesIn(d: Discipline, maximum: nat, used: int, resources: set<ResourceId>, inside: Crowd, monitor: Handle, ctx: ContextId)
    requires Reached(d, maximum, Shared(maximum, used, resources, inside, monitor)) && ctx !in inside.contexts && ctx !in inside.tasks
    ensures Reached(d, maximum, Shared(maximum, used, resources, With(inside, ctx), monitor))
  {
    Next(d, maximum, Shared(maximum, used, resources, inside, monitor), Enter(ctx, ctx, false),
         Shared(maximum, used, resources, With(inside, ctx), monitor));
  }

  lemma GoesOut(d: Discipline, maximum: nat, used: int, resources: set<ResourceId>, inside: Crowd, monitor: Handle, ctx: ContextId)
    requires Reached(d, maximum, Shared(maximum, used, resources, With(inside, ctx), monitor)) && ctx !in monitor.entries
    requires ctx !in inside.contexts && ctx !in inside.tasks
    ensures Reached(d, maximum, Shared(maximum, used, resources, inside, monitor))
  {
    var s := Shared(maximum, used, resources, With(inside, ctx), monitor);
    assert s.core.tasks - {ctx} == inside.tasks && s.contexts - {ctx} == inside.contexts;
    Next(d, maximum, s, Exit(ctx), Shared(maximum, used, resources, inside, monitor));
  }

  /** An event of the monitor. */
  lemma Does(d: Discipline, maximum: nat, used: int, resources: set<ResourceId>, inside: Crowd, monitor: Handle, e: Event,
             less: int, more: set<ResourceId>, next: Handle)
    requires var s := Shared(maximum, used, resources, inside, monitor);
      Reached(d, maximum, s) && Enabled(d, s, e) && HandleEvent(e) && !e.Create? &&
      Apply(d, s, e).core == Core(maximum, less, false, more, s.core.tasks) && Apply(d, s, e).handles[0] == next && e.id == 0
    ensures Reached(d, maximum, Shared(maximum, less, more, inside, next))
  {
    var s, n := Shared(maximum, used, resources, inside, monitor), Shared(maximum, less, more, inside, next);
    assert s.handles[0 := next] == n.handles && s.handles[0 := s.handles[0]] == s.handles;
    assert Apply(d, s, e) == n;
    Next(d, maximum, s, e, n);
  }

  function One(): Crowd {
    With(NOBODY, 0)
  }

  function Two(): Crowd {
    With(One(), 1)
  }

  function In(native: bool, entries: map<ContextId, Phase>, closers: nat, held: int): Handle {
    Handle(Monitor, native, entries, closers, false, held)
  }

  /** A task is inside the monitor's own entry. */
  lemma IsEntered(d: Discipline, maximum: nat)
    requires maximum >= 1
    ensures Reached(d, maximum, Shared(maximum, 1, {0}, One(), In(true, map[0 := Entering], 0, 1)))
  {
    Created(d, maximum);
    GoesIn(d, maximum, 0, {}, NOBODY, FRESH, 0);
    Does(d, maximum, 0, {}, One(), FRESH, Open(0, 0), 1, {}, In(false, map[0 := Opening], 0, 1));
    assert map[0 := Opening][0 := Entering] == map[0 := Entering];
    Does(d, maximum, 1, {}, One(), In(false, map[0 := Opening], 0, 1), Opened(0, 0), 1, {0}, In(true, map[0 := Entering], 0, 1));
  }

  lemma IsOpen(d: Discipline, maximum: nat)
    requires maximum >= 1
    ensures Reached(d, maximum, Shared(maximum, 1, {0}, NOBODY, In(true, map[], 0, 1)))
  {
    IsEntered(d, maximum);
    assert map[0 := Entering] - {0} == map[];
    Does(d, maximum, 1, {0}, One(), In(true, map[0 := Entering], 0, 1), EnterDone(0, 0), 1, {0}, In(true, map[], 0, 1));
    GoesOut(d, maximum, 1, {0}, NOBODY, In(true, map[], 0, 1), 0);
  }

  /** Closed while a task enters it: both give the one permit back. */
  lemma ClosedDuringEntry(d: Discipline, maximum: nat)
    requires maximum >= 1 && !d.noCloseDuringEntry
    ensures Reached(d, maximum, Shared(maximum, -1, {}, NOBODY, In(false, map[], 0, -1)))
  {
    IsEntered(d, maximum);
    Does(d, maximum, 1, {0}, One(), In(true, map[0 := Entering], 0, 1), BeginClose(0), 1, {0}, In(false, map[0 := Entering], 1, 1));
    assert map[0 := Entering] - {0} == map[];
    Does(d, maximum, 1, {0}, One(), In(false, map[0 := Entering], 1, 1), EnterFails(0, 0), 0, {0}, In(false, map[], 1, 0));
    assert {0} - {0} == {};
    Does(d, maximum, 0, {0}, One(), In(false, map[], 1, 0), EndClose(0), -1, {}, In(false, map[], 0, -1));
    GoesOut(d, maximum, -1, {}, NOBODY, In(false, map[], 0, -1), 0);
  }

  function Both(first: Phase, second: Phase): map<ContextId, Phase> {
    map[0 := first][1 := second]
  }

  /** Two tasks are inside the entry at once, each with a permit. */
  lemma EnteredByTwo(d: Discipline, maximum: nat)
    requires maximum >= 2 && !d.oneEntry
    ensures Reached(d, maximum, Shared(maximum, 2, {0}, Two(), In(true, Both(Entering, Entering), 0, 2)))
  {
    Created(d, maximum);
    GoesIn(d, maximum, 0, {}, NOBODY, FRESH, 0);
    GoesIn(d, maximum, 0, {}, One(), FRESH, 1);
    Does(d, maximum, 0, {}, Two(), FRESH, Open(0, 0), 1, {}, In(false, map[0 := Opening], 0, 1));
    Does(d, maximum, 1, {}, Two(), In(false, map[0 := Opening], 0, 1), Open(1, 0), 2, {}, In(false, Both(Opening, Opening), 0, 2));
    assert Both(Opening, Opening)[0 := Entering] == Both(Entering, Opening);
    Does(d, maximum, 2, {}, Two(), In(false, Both(Opening, Opening), 0, 2), Opened(0, 0), 2, {0}, In(true, Both(Entering, Opening), 0, 2));
    assert Both(Entering, Opening)[1 := Entering] == Both(Entering, Entering);
    Does(d, maximum, 2, {0}, Two(), In(true, Both(Entering, Opening), 0, 2), Opened(1, 0), 2, {0}, In(true, Both(Entering, Entering), 0, 2));
  }

  /** Afterwards there are two permits for one native object. */
  lemma EnteredTwice(d: Discipline, maximum: nat)
    requires maximum >= 2 && !d.oneEntry
    ensures Reached(d, maximum, Shared(maximum, 2, {0}, NOBODY, In(true, map[], 0, 2)))
  {
    EnteredByTwo(d, maximum);
    assert Both(Entering, Entering) - {1} == map[0 := Entering] && map[0 := Entering] - {0} == map[];
    Does(d, maximum, 2, {0}, Two(), In(true, Both(Entering, Entering), 0, 2), EnterDone(1, 0), 2, {0}, In(true, map[0 := Entering], 0, 2));
    Does(d, maximum, 2, {0}, Two(), In(true, map[0 := Entering], 0, 2), EnterDone(0, 0), 2, {0}, In(true, map[], 0, 2));
    GoesOut(d, maximum, 2, {0}, One(), In(true, map[], 0, 2), 1);
    GoesOut(d, maximum, 2, {0}, NOBODY, In(true, map[], 0, 2), 0);
  }

  /** A user's close has taken the native object, and has not yet given the permit back. */
  lemma BeingClosed(d: Discipline, maximum: nat)
    requires maximum >= 1
    ensures Reached(d, maximum, Shared(maximum, 1, {0}, NOBODY, In(false, map[], 1, 1)))
  {
    IsOpen(d, maximum);
    Does(d, maximum, 1, {0}, NOBODY, In(true, map[], 0, 1), BeginClose(0), 1, {0}, In(false, map[], 1, 1));
  }

  /** Entered again while it is being closed: the close takes the new native object off the client's list. */
  lemma EnteredDuringClose(d: Discipline, maximum: nat)
    requires maximum >= 2 && !d.noEntryDuringClose
    ensures Reached(d, maximum, Shared(maximum, 1, {}, NOBODY, In(true, map[], 0, 1)))
  {
    BeingClosed(d, maximum);
    GoesIn(d, maximum, 1, {0}, NOBODY, In(false, map[], 1, 1), 0);
    Does(d, maximum, 1, {0}, One(), In(false, map[], 1, 1), Open(0, 0), 2, {0}, In(false, map[0 := Opening], 1, 2));
    assert map[0 := Opening][0 := Entering] == map[0 := Entering] && {0} + {0} == {0};
    Does(d, maximum, 2, {0}, One(), In(false, map[0 := Opening], 1, 2), Opened(0, 0), 2, {0}, In(true, map[0 := Entering], 1, 2));
    assert {0} - {0} == {} && map[0 := Entering] - {0} == map[];
    Does(d, maximum, 2, {0}, One(), In(true, map[0 := Entering], 1, 2), EndClose(0), 1, {}, In(true, map[0 := Entering], 0, 1));
    Does(d, maximum, 1, {}, One(), In(true, map[0 := Entering], 0, 1), EnterDone(0, 0), 1, {}, In(true, map[], 0, 1));
    GoesOut(d, maximum, 1, {}, NOBODY, In(true, map[], 0, 1), 0);
  }

  // ---------- the client's close of what is left ----------

  function Shutting(maximum: nat, used: int, resources: set<ResourceId>, monitor: Handle, close: Close): State {
    State(Core(maximum, used, true, resources, map[]), map[], map[0 := monitor], close)
  }

  lemma Shuts(d: Discipline, maximum: nat, used: int, resources: set<ResourceId>, monitor: Handle)
    requires Reached(d, maximum, Shared(maximum, used, resources, NOBODY, monitor))
    ensures Reached(d, maximum, Shutting(maximum, used, resources, monitor, ClosingResources(resources)))
  {
    var s1 := Shutting(maximum, used, resources, monitor, Started(0));
    Next(d, maximum, Shared(maximum, used, resources, NOBODY, monitor), StartClose(0), s1);
    var s2 := Shutting(maximum, used, resources, monitor, Draining({}));
    assert s1.core.tasks.Keys - {0} == {};
    Next(d, maximum, s1, StartDrain, s2);
    Next(d, maximum, s2, EndDrain, Shutting(maximum, used, resources, monitor, ClosingResources(resources)));
  }

  lemma Ends(d: Discipline, maximum: nat, used: int, resources: set<ResourceId>, monitor: Handle)
    requires Reached(d, maximum, Shutting(maximum, used, resources, monitor, ClosingResources({}))) && !monitor.byClient
    ensures Reached(d, maximum, Shutting(maximum, used, resources, monitor, Finished))
  {
    Next(d, maximum, Shutting(maximum, used, resources, monitor, ClosingResources({})), FinishClose,
         Shutting(maximum, used, resources, monitor, Finished));
  }

  /** A close can finish with a permit in use, or with one too many given back. */
  lemma ClosesWithRest(d: Discipline, maximum: nat) returns (used: int, monitor: Handle)
    requires !(NoCloseMeanwhile(d, Start(maximum)) && OneAtATime(d, Start(maximum)) && OneCloseAtATime(d, Start(maximum)))
    ensures used != 0 && Reached(d, maximum, Shutting(maximum, used, {}, monitor, Finished))
  {
    if !NoCloseMeanwhile(d, Start(maximum)) {
      used, monitor := -1, In(false, map[], 0, -1);
      ClosedDuringEntry(d, maximum);
      Shuts(d, maximum, used, {}, monitor);
    } else if !OneAtATime(d, Start(maximum)) {
      used, monitor := 1, In(false, map[], 0, 1);
      EnteredTwice(d, maximum);
      Shuts(d, maximum, 2, {0}, In(true, map[], 0, 2));
      ClientCloses(d, maximum);
    } else if maximum >= 2 && !d.noEntryDuringClose {
      used, monitor := 1, In(true, map[], 0, 1);
      EnteredDuringClose(d, maximum);
      Shuts(d, maximum, used, {}, monitor);
    } else {
      used, monitor := 1, In(false, map[], 1, 1);
      BeingClosed(d, maximum);
      Shuts(d, maximum, used, {0}, monitor);
      ClientCloseFindsNothing(d, maximum);
    }
    Ends(d, maximum, used, {}, monitor);
  }

  lemma ClientCloses(d: Discipline, maximum: nat)
    requires Reached(d, maximum, Shutting(maximum, 2, {0}, In(true, map[], 0, 2), ClosingResources({0})))
    ensures Reached(d, maximum, Shutting(maximum, 1, {}, In(false, map[], 0, 1), ClosingResources({})))
  {
    var taken := In(false, map[], 0, 2).(byClient := true);
    assert {0} - {0} == {};
    var s := Shutting(maximum, 2, {0}, In(true, map[], 0, 2), ClosingResources({0}));
    var n := Shutting(maximum, 2, {0}, taken, ClosingResources({}));
    assert s.handles[0 := taken] == n.handles;
    Next(d, maximum, s, CloseResource(0), n);
    var m := Shutting(maximum, 1, {}, In(false, map[], 0, 1), ClosingResources({}));
    assert n.handles[0 := m.handles[0]] == m.handles;
    Next(d, maximum, n, EndClientClose(0), m);
  }

  /** The user's close is still running; that of the client finds no native object, and returns at once. */
  lemma ClientCloseFindsNothing(d: Discipline, maximum: nat)
    requires Reached(d, maximum, Shutting(maximum, 1, {0}, In(false, map[], 1, 1), ClosingResources({0}))) && !d.oneClose
    ensures Reached(d, maximum, Shutting(maximum, 1, {}, In(false, map[], 1, 1), ClosingResources({})))
  {
    assert {0} - {0} == {};
    Next(d, maximum, Shutting(maximum, 1, {0}, In(false, map[], 1, 1), ClosingResources({0})), CloseResource(0),
         Shutting(maximum, 1, {}, In(false, map[], 1, 1), ClosingResources({})));
  }

  // ---------- what holds, and exactly when ----------

  /** The permits in use never exceed the maximum, and cover the blocking executions. */
  ghost predicate AlwaysWithinBounds(d: Discipline, maximum: nat) {
    forall run :: WithinBounds(Exec(d, Start(maximum), run))
  }

  /** True exactly if no monitor is closed while a task is entering it. */
  lemma {:induction false} BoundedExactly(d: Discipline, maximum: nat)
    ensures AlwaysWithinBounds(d, maximum) <==> d.noCloseDuringEntry || maximum == 0
  {
    if NoCloseMeanwhile(d, Start(maximum)) {
      forall run ensures WithinBounds(Exec(d, Start(maximum), run)) {
        BaseAlways(d, maximum, run);
        CoveredAlways(d, maximum, run);
        CoveredIsBounded(Exec(d, Start(maximum), run));
      }
    } else {
      ClosedDuringEntry(d, maximum);
      var run :| Exec(d, Start(maximum), run) == Shared(maximum, -1, {}, NOBODY, In(false, map[], 0, -1));
      assert !WithinBounds(Exec(d, Start(maximum), run));
    }
  }

  ghost predicate AlwaysConserved(d: Discipline, maximum: nat) {
    forall run :: Conserved(Exec(d, Start(maximum), run))
  }

  lemma TotalOfOne(s: State)
    requires s.handles.Keys == {0}
    ensures Total(InUseOf(s)) == InUse(s.handles[0])
  {
    TotalWithout(InUseOf(s), 0);
    assert InUseOf(s) - {0} == map[];
  }

  /** True exactly if, besides, no two tasks enter a monitor at once - which a single permit rules out by itself. */
  lemma {:induction false} ConservedExactly(d: Discipline, maximum: nat)
    ensures AlwaysConserved(d, maximum) <==> (d.noCloseDuringEntry || maximum == 0) && (d.oneEntry || maximum <= 1)
  {
    if NoCloseMeanwhile(d, Start(maximum)) && OneAtATime(d, Start(maximum)) {
      forall run ensures Conserved(Exec(d, Start(maximum), run)) {
        BaseAlways(d, maximum, run);
        ExactAlways(d, maximum, run);
        ExactIsConserved(Exec(d, Start(maximum), run));
      }
    } else {
      var s := Unconserved(d, maximum);
      var run :| Exec(d, Start(maximum), run) == s;
      assert !Conserved(Exec(d, Start(maximum), run));
    }
  }

  lemma Unconserved(d: Discipline, maximum: nat) returns (s: State)
    requires !(NoCloseMeanwhile(d, Start(maximum)) && OneAtATime(d, Start(maximum)))
    ensures Reached(d, maximum, s) && !Conserved(s)
  {
    if !NoCloseMeanwhile(d, Start(maximum)) {
      ClosedDuringEntry(d, maximum);
      s := Shared(maximum, -1, {}, NOBODY, In(false, map[], 0, -1));
    } else {
      EnteredTwice(d, maximum);
      s := Shared(maximum, 2, {0}, NOBODY, In(true, map[], 0, 2));
    }
    TotalOfOne(s);
    assert BlockingContexts(s) == {} && OwnPermits(map[]) == {};
  }

  /** When the close has finished, nothing holds a permit, whatever still happens afterwards. */
  ghost predicate ClosesClean(d: Discipline, maximum: nat) {
    forall run :: var s := Exec(d, Start(maximum), run); s.close.Finished? ==> s.core.longInUse == 0 && s.contexts == map[] && s.core.resources == {}
  }

  /** True exactly under the whole discipline, as far as there are permits for it to matter. */
  lemma {:induction false} ClosedExactly(d: Discipline, maximum: nat)
    ensures ClosesClean(d, maximum) <==>
      (maximum == 0 || (d.noCloseDuringEntry && d.oneClose)) && (maximum <= 1 || (d.oneEntry && d.noEntryDuringClose))
  {
    if NoCloseMeanwhile(d, Start(maximum)) && OneAtATime(d, Start(maximum)) && OneCloseAtATime(d, Start(maximum)) {
      forall run | Exec(d, Start(maximum), run).close.Finished?
        ensures Exec(d, Start(maximum), run).core.longInUse == 0 && Exec(d, Start(maximum), run).contexts == map[] && Exec(d, Start(maximum), run).core.resources == {}
      {
        OrderlyAlways(d, maximum, run);
        ClosedHoldsNothing(d, Exec(d, Start(maximum), run));
      }
    } else {
      var used, monitor := ClosesWithRest(d, maximum);
      var run :| Exec(d, Start(maximum), run) == Shutting(maximum, used, {}, monitor, Finished);
      assert !ClosesClean(d, maximum);
    }
  }

  lemma ClosedHoldsNothing(d: Discipline, s: State)
    requires Orderly(d, s) && s.close.Finished?
    ensures s.core.longInUse == 0 && s.contexts == map[] && s.core.resources == {}
  {
    forall id | id in s.handles ensures HeldOf(s)[id] == 0 && id !in s.core.resources {
      assert Tidy(s, id, s.handles[id]) && HandleBase(s, id, s.handles[id]) && Exact(s.handles[id]);
      assert OwnPermits(s.handles[id].entries) == {};
    }
    TotalOfNone(HeldOf(s));
    assert BlockingContexts(s) == {};
  }

  lemma {:induction false} TotalOfNone(m: map<ResourceId, int>)
    requires forall id :: id in m ==> m[id] == 0
    ensures Total(m) == 0
    decreases |m|
  {
    if m != map[] {
      var id :| id in m && Total(m) == m[id] + Total(m - {id});
      TotalOfNone(m - {id});
    }
  }

  /** Once the cancelled tasks are done no operation is open, and every holder of a permit is among the resources to close. */
  lemma {:induction false} Drained(d: Discipline, maximum: nat, run: seq<Event>)
    requires OneAtATime(d, Start(maximum)) && NoCloseMeanwhile(d, Start(maximum)) && OneCloseAtATime(d, Start(maximum))
    requires var s := Exec(d, Start(maximum), run); s.close.Draining? && forall t :: t in s.close.waiting ==> t !in s.core.tasks
    ensures var s := Exec(d, Start(maximum), run);
      s.contexts == map[] && forall id :: id in s.handles && InUse(s.handles[id]) > 0 ==> id in s.core.resources
  {
    OrderlyAlways(d, maximum, run);
    var s := Exec(d, Start(maximum), run);
    assert s.core.tasks.Keys == {};
    DrainedContexts(s);
    forall id | id in s.handles && InUse(s.handles[id]) > 0 ensures id in s.core.resources {
      assert Tidy(s, id, s.handles[id]) && HandleBase(s, id, s.handles[id]);
      assert OwnPermits(s.handles[id].entries) == {};
    }
  }

  /** Once closing has begun, nothing opens the client again, grants a permit, starts an operation or makes a handle. */
  lemma {:induction false} ClosingIsTerminal(d: Discipline, s: State, after: seq<Event>)
    requires s.core.closed
    ensures var n := Exec(d, s, after);
      n.core.closed && n.core.longInUse <= s.core.longInUse && n.core.tasks.Keys <= s.core.tasks.Keys && n.contexts.Keys <= s.contexts.Keys &&
      n.handles.Keys == s.handles.Keys
    decreases |after|
  {
    if after != [] {
      ClosingIsTerminal(d, s, after[..|after| - 1]);
      ClosedStep(d, Exec(d, s, after[..|after| - 1]), after[|after| - 1]);
    }
  }

  lemma ClosedStep(d: Discipline, s: State, e: Event)
    requires s.core.closed
    ensures var n := Step(d, s, e);
      n.core.closed && n.core.longInUse <= s.core.longInUse && n.core.tasks.Keys <= s.core.tasks.Keys && n.contexts.Keys <= s.contexts.Keys &&
      n.handles.Keys == s.handles.Keys
  {
  }

  // ---------- more executions than permits ----------

  /** After the double release, one blocking execution more than the maximum can run at once. */
  lemma {:induction false} BlockingOverflows(d: Discipline, maximum: nat)
    requires maximum >= 1 && !d.noCloseDuringEntry
    ensures exists run :: |BlockingContexts(Exec(d, Start(maximum), run))| == maximum + 1
  {
    var s := Blocks(d, maximum, maximum + 1);
    var run :| s == Exec(d, Start(maximum), run);
  }

  lemma {:induction false} Blocks(d: Discipline, maximum: nat, n: nat) returns (s: State)
    requires maximum >= 1 && !d.noCloseDuringEntry && n <= maximum + 1
    ensures Reached(d, maximum, s) && |BlockingContexts(s)| == n && s.core.longInUse == n - 1 && s.core.maximum == maximum && !s.core.closed
    ensures forall ctx :: ctx in s.contexts ==> ctx < n
    decreases n
  {
    if n == 0 {
      ClosedDuringEntry(d, maximum);
      s := Shared(maximum, -1, {}, NOBODY, In(false, map[], 0, -1));
      assert BlockingContexts(s) == {};
    } else {
      var m := Blocks(d, maximum, n - 1);
      s := Step(d, m, Enter(n - 1, 0, true));
      Next(d, maximum, m, Enter(n - 1, 0, true), s);
      assert s.contexts == m.contexts[n - 1 := Context(0, true)];
      ContextAdded(m, s, n - 1);
    }
  }
}
