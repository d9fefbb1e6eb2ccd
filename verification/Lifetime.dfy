/**
 The shutdown barrier and the budget of long operations that all Redis commands share. The
 functions are the code between two awaits; the class runs them in place.
 */
module Lifetime {
  import opened Wrappers

  type TaskId = nat
  type ResourceId = nat

  datatype Error = ClientClosed | PoolExhausted

  /** The fields of the lifetime. `tasks` counts the operations that each task is inside. */
  datatype Core = Core(maximum: nat, longInUse: int, closed: bool, resources: set<ResourceId>, tasks: map<TaskId, nat>)

  function Acquired(core: Core): Result<Core, Error> {
    if core.closed then Err(ClientClosed)
    else if core.longInUse >= core.maximum then Err(PoolExhausted)
    else Ok(core.(longInUse := core.longInUse + 1))
  }

  function Released(core: Core): Core {
    core.(longInUse := core.longInUse - 1)
  }

  function Depth(core: Core, task: TaskId): nat {
    if task in core.tasks then core.tasks[task] else 0
  }

  function Entered(core: Core, task: TaskId): Result<Core, Error> {
    if core.closed then Err(ClientClosed) else Ok(core.(tasks := core.tasks[task := Depth(core, task) + 1]))
  }

  function Exited(core: Core, task: TaskId): Core
    requires Depth(core, task) >= 1
  {
    core.(tasks := if core.tasks[task] == 1 then core.tasks - {task} else core.tasks[task := core.tasks[task] - 1])
  }

  class LifetimeObject {
    const maximum: nat
    var longInUse: int
    var closed: bool
    var resources: set<ResourceId>
    var tasks: map<TaskId, nat>

    function Fields(): Core
      reads this
    {
      Core(maximum, longInUse, closed, resources, tasks)
    }

    constructor (maximum: nat)
      ensures Fields() == Core(maximum, 0, false, {}, map[])
    {
      this.maximum := maximum;
      longInUse, closed, resources, tasks := 0, false, {}, map[];
    }

    method CheckOpen() returns (result: Result<(), Error>)
      ensures result == if closed then Err(ClientClosed) else Ok(())
    {
      if closed {
        return Err(ClientClosed);
      }
      return Ok(());
    }

    method Acquire() returns (result: Result<(), Error>)
      modifies this
      ensures result == if old(closed) then Err(ClientClosed) else if old(longInUse) >= maximum then Err(PoolExhausted) else Ok(())
      ensures longInUse == old(longInUse) + if result.Ok? then 1 else 0
      ensures Acquired(old(Fields())).Ok? ==> result == Ok(()) && Fields() == Acquired(old(Fields())).value
      ensures Acquired(old(Fields())).Err? ==> result == Err(Acquired(old(Fields())).error) && Fields() == old(Fields())
    {
      var open := CheckOpen();
      if open.Err? {
        return open;
      }
      if longInUse >= maximum {
        return Err(PoolExhausted);
      }
      longInUse := longInUse + 1;
      return Ok(());
    }

    method Release()
      modifies this
      ensures Fields() == Released(old(Fields()))
    {
      longInUse := longInUse - 1;
    }

    method EnterOperation(task: TaskId) returns (result: Result<(), Error>)
      modifies this
      ensures result == if old(closed) then Err(ClientClosed) else Ok(())
      ensures Depth(Fields(), task) == old(Depth(Fields(), task)) + if result.Ok? then 1 else 0
      ensures Entered(old(Fields()), task).Ok? ==> result == Ok(()) && Fields() == Entered(old(Fields()), task).value
      ensures Entered(old(Fields()), task).Err? ==> result == Err(ClientClosed) && Fields() == old(Fields())
    {
      var open := CheckOpen();
      if open.Err? {
        return open;
      }
      tasks := tasks[task := (if task in tasks then tasks[task] else 0) + 1];
      return Ok(());
    }

    method ExitOperation(task: TaskId)
      requires Depth(Fields(), task) >= 1
      modifies this
      ensures Depth(Fields(), task) == old(Depth(Fields(), task)) - 1 && (task in tasks <==> Depth(Fields(), task) != 0)
      ensures Fields() == Exited(old(Fields()), task)
    {
      tasks := tasks[task := tasks[task] - 1];
      if tasks[task] == 0 {
        tasks := tasks - {task};
      }
      assert tasks == Exited(old(Fields()), task).tasks;
    }
  }
}
