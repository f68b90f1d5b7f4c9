/** The per-call task registry of bot/task_manager/task_manager.py. A task is
    an opaque handle; the registry only ever learns whether it is done. */
module Tasks {
  import opened Common

  /** A handle of an `asyncio.Task`. */
  type TaskId = nat
  /** A handle of an `asyncio.Lock`. */
  type LockId = nat
  type TaskName = string
  type Registry = map<CallId, map<TaskName, TaskId>>

  /** The slot every caller in the bot uses. */
  const AudioProcess: TaskName := "audio_process"

  /** The task registered under `(c, n)`, if any. */
  function Lookup(tasks: Registry, c: CallId, n: TaskName): (r: Option<TaskId>)
    ensures r.Some? <==> c in tasks && n in tasks[c]
    ensures r.Some? ==> r.value == tasks[c][n]
  {
    if c in tasks && n in tasks[c] then Some(tasks[c][n]) else None
  }

  /** The slots of a call, the empty dictionary when it has none. */
  function SlotsOf(tasks: Registry, c: CallId): map<TaskName, TaskId> {
    if c in tasks then tasks[c] else map[]
  }

  /** No call is kept with an empty dictionary of tasks. */
  predicate NoEmptyCalls(tasks: Registry) {
    forall c :: c in tasks ==> tasks[c] != map[]
  }

  /** The task `(c, n)` names, as a set of zero or one handles. */
  function Occupant(tasks: Registry, c: CallId, n: TaskName): (r: set<TaskId>)
    ensures r == if Lookup(tasks, c, n).Some? then {Lookup(tasks, c, n).value} else {}
  {
    if c in tasks && n in tasks[c] then {tasks[c][n]} else {}
  }

  /** `del active_tasks[c][n]`, then `del active_tasks[c]` when nothing is left. */
  function Vacate(tasks: Registry, c: CallId, n: TaskName): (r: Registry)
    ensures Lookup(r, c, n) == None
    ensures forall d, m {:trigger Lookup(r, d, m)} :: d != c || m != n ==> Lookup(r, d, m) == Lookup(tasks, d, m)
    ensures NoEmptyCalls(tasks) ==> NoEmptyCalls(r)
    ensures c in r ==> c in tasks
    ensures forall d :: d != c ==> (d in r <==> d in tasks)
  {
    if c in tasks && n in tasks[c] then
      var rest := tasks[c] - {n};
      assert forall m :: m in tasks[c] && m != n ==> m in rest;
      if rest == map[] then tasks - {c} else tasks[c := rest]
    else tasks
  }

  /** `active_tasks.setdefault(c, {})[n] = t`. */
  function Install(tasks: Registry, c: CallId, n: TaskName, t: TaskId): (r: Registry)
    ensures Lookup(r, c, n) == Some(t)
    ensures forall d, m {:trigger Lookup(r, d, m)} :: d != c || m != n ==> Lookup(r, d, m) == Lookup(tasks, d, m)
    ensures NoEmptyCalls(tasks) ==> NoEmptyCalls(r)
    ensures r.Keys == tasks.Keys + {c}
  {
    tasks[c := SlotsOf(tasks, c)[n := t]]
  }

  /** `TaskManager`: `activeTasks` is `active_tasks`, `taskLocks` is
      `task_locks`; `done` is the set of handles whose task has finished
      (returned, raised or was cancelled), and `nextTask`, `nextLock` are the
      next fresh handles. */
  class TaskManager {
    var activeTasks: Registry
    var taskLocks: map<CallId, LockId>
    var done: set<TaskId>
    var nextTask: TaskId
    var nextLock: LockId

    ghost predicate Valid()
      reads this
    {
      && NoEmptyCalls(activeTasks)
      && (forall c, n :: Lookup(activeTasks, c, n).Some? ==> Lookup(activeTasks, c, n).value < nextTask)
      && (forall t :: t in done ==> t < nextTask)
      && (forall c :: c in taskLocks ==> taskLocks[c] < nextLock)
      // every call that has tasks has taken its lock
      && activeTasks.Keys <= taskLocks.Keys
    }

    constructor ()
      ensures Valid()
      ensures activeTasks == map[] && taskLocks == map[] && done == {}
    {
      activeTasks := map[];
      taskLocks := map[];
      done := {};
      nextTask := 0;
      nextLock := 0;
    }

    /** `get_active_tasks`: the call's dictionary, empty exactly when the
        call has no entry. */
    function GetActiveTasks(callId: CallId): (r: map<TaskName, TaskId>)
      reads this
      ensures Valid() ==> (r == map[] <==> callId !in activeTasks)
      ensures forall n :: n in r <==> Lookup(activeTasks, callId, n).Some?
      ensures forall n :: n in r ==> Lookup(activeTasks, callId, n) == Some(r[n])
    {
      SlotsOf(activeTasks, callId)
    }

    /** `is_task_running`: a task is registered under `(callId, taskName)`
        and it is not done. */
    predicate IsTaskRunning(callId: CallId, taskName: TaskName)
      reads this
      ensures IsTaskRunning(callId, taskName) <==>
        callId in activeTasks && taskName in activeTasks[callId] && activeTasks[callId][taskName] !in done
      // a running task was created after its call took its lock, and its handle was issued
      ensures Valid() && IsTaskRunning(callId, taskName) ==>
        callId in taskLocks && activeTasks[callId][taskName] < nextTask
    {
      var slot := Lookup(activeTasks, callId, taskName);
      slot.Some? && slot.value !in done
    }

    /** `get_lock`: the same lock for the same call, a fresh one the first
        time. */
    method GetLock(callId: CallId) returns (lock: LockId)
      requires Valid()
      modifies this`taskLocks, this`nextLock
      ensures Valid()
      ensures callId in old(taskLocks) ==> lock == old(taskLocks)[callId] && taskLocks == old(taskLocks) && nextLock == old(nextLock)
      ensures callId !in old(taskLocks) ==>
        && lock == old(nextLock) && nextLock == old(nextLock) + 1
        && taskLocks == old(taskLocks)[callId := lock]
      // a new lock is never one another call already holds
      ensures callId !in old(taskLocks) ==> forall d :: d in old(taskLocks) ==> old(taskLocks)[d] != lock
      ensures taskLocks.Keys == old(taskLocks).Keys + {callId}
    {
      if callId !in taskLocks {
        taskLocks := taskLocks[callId := nextLock];
        nextLock := nextLock + 1;
      }
      lock := taskLocks[callId];
    }

    /** `task.cancel()` followed by `await task`, whose outcome is swallowed;
        a task that is already done is left alone. Afterwards it is done. */
    method CancelAndAwait(t: TaskId)
      requires Valid() && t < nextTask
      modifies this`done
      ensures Valid()
      ensures done == old(done) + {t}
    {
      if t !in done {
        done := done + {t};
      }
    }

    /** `cancel_task`: true exactly when something was registered under
        `(callId, taskName)`; the slot is then vacated and its task done. */
    method CancelTask(callId: CallId, taskName: TaskName) returns (found: bool)
      requires Valid()
      modifies this
      ensures Valid()
      ensures found <==> Lookup(old(activeTasks), callId, taskName).Some?
      ensures activeTasks == Vacate(old(activeTasks), callId, taskName)
      ensures done == old(done) + Occupant(old(activeTasks), callId, taskName)
      ensures !IsTaskRunning(callId, taskName)
      ensures taskLocks.Keys == old(taskLocks).Keys + {callId}
      ensures nextTask == old(nextTask)
    {
      var _ := GetLock(callId);
      if callId in activeTasks && taskName in activeTasks[callId] {
        var task := activeTasks[callId][taskName];
        assert Lookup(activeTasks, callId, taskName).Some?;
        CancelAndAwait(task);
        activeTasks := Vacate(activeTasks, callId, taskName);
        return true;
      }
      return false;
    }

    /** `create_task`: the task registered under `(callId, taskName)` is
        cancelled and awaited, and a fresh task takes its place, which is
        running when the call returns. */
    method CreateTask(callId: CallId, taskName: TaskName) returns (task: TaskId)
      requires Valid()
      modifies this
      ensures Valid()
      ensures task == old(nextTask) && nextTask == old(nextTask) + 1
      ensures task !in old(done)
      ensures forall c, n :: Lookup(old(activeTasks), c, n) != Some(task)
      ensures done == old(done) + Occupant(old(activeTasks), callId, taskName)
      ensures activeTasks == Install(old(activeTasks), callId, taskName, task)
      ensures IsTaskRunning(callId, taskName)
      ensures taskLocks.Keys == old(taskLocks).Keys + {callId}
    {
      var _ := GetLock(callId);
      ghost var tasks := activeTasks;
      ghost var locks := taskLocks.Keys;
      if callId in activeTasks && taskName in activeTasks[callId] {
        var existingTask := activeTasks[callId][taskName];
        assert Lookup(activeTasks, callId, taskName).Some?;
        CancelAndAwait(existingTask);
      }
      assert done == old(done) + Occupant(tasks, callId, taskName);
      task := nextTask;
      nextTask := nextTask + 1;
      assert activeTasks == tasks;
      activeTasks := Install(activeTasks, callId, taskName, task);
      assert taskLocks.Keys == locks;
    }

    /** `cleanup_call`: every task of the call is cancelled and awaited, one
        after another, then the call's entry is removed. */
    method CleanupCall(callId: CallId)
      requires Valid()
      modifies this
      ensures Valid()
      ensures activeTasks == old(activeTasks) - {callId}
      ensures done == old(done) + SlotsOf(old(activeTasks), callId).Values
      ensures forall n :: !IsTaskRunning(callId, n)
      ensures taskLocks.Keys == old(taskLocks).Keys + {callId}
      ensures nextTask == old(nextTask)
    {
      var _ := GetLock(callId);
      if callId in activeTasks {
        var slots := activeTasks[callId];
        var remaining := slots.Keys;
        while remaining != {}
          invariant Valid()
          invariant activeTasks == old(activeTasks) && slots == activeTasks[callId]
          invariant nextTask == old(nextTask) && taskLocks.Keys == old(taskLocks).Keys + {callId}
          invariant remaining <= slots.Keys
          invariant done == old(done) + set n | n in slots.Keys - remaining :: slots[n]
          decreases remaining
        {
          var taskName :| taskName in remaining;
          assert Lookup(activeTasks, callId, taskName).Some?;
          CancelAndAwait(slots[taskName]);
          remaining := remaining - {taskName};
        }
        assert slots.Values == set n | n in slots.Keys :: slots[n];
        assert forall c, n :: Lookup(activeTasks - {callId}, c, n).Some? ==>
          Lookup(activeTasks - {callId}, c, n) == Lookup(activeTasks, c, n);
        activeTasks := activeTasks - {callId};
      }
    }

    /** Not a member of the source: asyncio marks a task done when its
        coroutine returns or raises. */
    method TaskFinished(t: TaskId)
      requires Valid() && t < nextTask
      modifies this`done
      ensures Valid()
      ensures done == old(done) + {t}
    {
      done := done + {t};
    }
  }
}
