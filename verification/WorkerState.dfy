/** The state that `tasksMutex` guards for task executions, and one function for
    each critical section that changes it. The class in Worker.dfy computes
    these functions in place; the protocol in WorkerProtocol.dfy interleaves them. */
module WorkerState {
  import opened ReplayCache

  datatype TaskExecution = TaskExecution(taskID: string, executionID: string)

  datatype Source = NoSource | UserSource | ShutdownSource

  /** Why a context ended. The first cause wins. */
  datatype Cause = Live | CancelCause | InterruptCause

  function FirstCause(current: Cause, next: Cause): Cause {
    if current.Live? then next else current
  }

  /** A task context and the observation context derived from it. */
  datatype TaskContext = TaskContext(cancelled: bool, observation: Cause) {
    function Cancel(): TaskContext {
      TaskContext(true, FirstCause(observation, CancelCause))
    }

    function Interrupt(): TaskContext {
      TaskContext(cancelled, FirstCause(observation, InterruptCause))
    }
  }

  /** One entry of `activeTasks`. `id` names the entry's done channel and its
      contexts; `cancelling` is a non-nil `stopCancellation`; `local` is false for
      the placeholder that a cancellation makes for an already completed execution. */
  datatype ActiveTask = ActiveTask(id: nat, source: Source, cancelling: bool, spawned: bool, local: bool)

  /** A backend canceller, named after the entry it was started for. */
  datatype Ticket = Ticket(id: nat, key: TaskExecution)

  datatype Registry = Registry(
    active: map<TaskExecution, ActiveTask>,
    completed: Cache<TaskExecution, bool>,
    contexts: map<nat, TaskContext>,
    doneCloses: multiset<nat>,
    stopped: set<Ticket>)

  function Remember(r: Registry, key: TaskExecution, accepted: bool): Registry {
    if key.executionID == "" then r else r.(completed := Put(r.completed, key, accepted))
  }

  predicate Known(r: Registry, key: TaskExecution) {
    key in r.active || key in r.completed.entries
  }

  /** The second critical section of an assignment: publish the new entry. */
  function Insert(r: Registry, key: TaskExecution, id: nat): Registry {
    r.(active := r.active[key := ActiveTask(id, NoSource, false, false, true)],
    contexts := r.contexts[id := TaskContext(false, Live)])
  }

  /** The keys among `keys` whose entry has no canceller yet. */
  function Cancellable(r: Registry, keys: set<TaskExecution>): set<TaskExecution> {
    set k | k in keys && k in r.active && !r.active[k].cancelling
  }

  function Tickets(r: Registry, keys: set<TaskExecution>): set<Ticket>
    requires keys <= r.active.Keys
  {
    set k | k in keys :: Ticket(r.active[k].id, k)
  }

  function Ids(r: Registry, keys: set<TaskExecution>): set<nat>
    requires keys <= r.active.Keys
  {
    set k | k in keys :: r.active[k].id
  }

  /** Marks every cancellable entry of `keys` as cancelled by the user. */
  function StartCancellations(r: Registry, keys: set<TaskExecution>): Registry {
    var started := Cancellable(r, keys);
    var ids := Ids(r, started);
    r.(active := map k | k in r.active ::
         if k in started then r.active[k].(source := UserSource, cancelling := true) else r.active[k],
    contexts := map i | i in r.contexts :: if i in ids then r.contexts[i].Cancel() else r.contexts[i])
  }

  /** A completed execution gets a placeholder entry whose done channel is closed. */
  function Placeholder(r: Registry, key: TaskExecution, newId: nat): Registry {
    if key in r.completed.entries && !r.completed.entries[key] && key !in r.active then
      r.(active := r.active[key := ActiveTask(newId, NoSource, false, false, false)],
      doneCloses := r.doneCloses + multiset{newId})
    else
      r
  }

  function RunWide(r: Registry, taskID: string): set<TaskExecution> {
    set k | k in r.active && k.taskID == taskID
  }

  /** The entries that a cancellation request looks at, after placeholders. */
  function Prepared(r: Registry, key: TaskExecution, newId: nat): Registry {
    if key.executionID == "" then r else Placeholder(r, key, newId)
  }

  function Targets(r: Registry, key: TaskExecution): set<TaskExecution> {
    if key.executionID == "" then
      RunWide(r, key.taskID)
    else if key in r.completed.entries && r.completed.entries[key] then
      {}
    else
      {key}
  }

  /** `handleTaskCancellation` once its shutdown test has passed. */
  function RequestCancellation(r: Registry, key: TaskExecution, newId: nat): Registry {
    StartCancellations(Prepared(r, key, newId), Targets(r, key))
  }

  /** The cancellers that `RequestCancellation` starts. */
  function StartedTickets(r: Registry, key: TaskExecution, newId: nat): set<Ticket> {
    var p := Prepared(r, key, newId);
    Tickets(p, Cancellable(p, Targets(r, key)))
  }

  /** A canceller whose backend call succeeded. */
  function AcceptCancellation(r: Registry, key: TaskExecution): Registry {
    var m := Remember(r, key, true);
    m.(active := m.active - {key})
  }

  function MarkSpawned(r: Registry, key: TaskExecution): Registry {
    if key in r.active then r.(active := r.active[key := r.active[key].(spawned := true)]) else r
  }

  /** The deferred bookkeeping of an execution. */
  function Settle(r: Registry, key: TaskExecution, interrupted: bool): Registry {
    if key !in r.active then r
    else
      var task := r.active[key];
      var closed := r.(doneCloses := r.doneCloses + multiset{task.id});
      if !task.spawned && !task.source.UserSource? then
        var m := if interrupted then closed else Remember(closed, key, false);
        m.(active := m.active - {key})
      else
        closed
  }

  function EndContext(r: Registry, id: nat): Registry {
    if id in r.contexts then r.(contexts := r.contexts[id := r.contexts[id].Cancel()]) else r
  }

  function CancellingKeys(r: Registry): set<TaskExecution> {
    set k | k in r.active && r.active[k].cancelling
  }

  function LocalKeys(r: Registry): set<TaskExecution> {
    set k | k in r.active && r.active[k].local
  }

  /** The task half of `shutdownTasks`. */
  function StopAll(r: Registry, preserve: bool): Registry {
    var ids := Ids(r, LocalKeys(r));
    r.(
      active := map k | k in r.active ::
        if !preserve && r.active[k].source.NoSource? then r.active[k].(source := ShutdownSource) else r.active[k],
      contexts := map i | i in r.contexts ::
        if i !in ids then r.contexts[i]
        else if preserve then r.contexts[i].Interrupt()
        else r.contexts[i].Cancel(),
      stopped := r.stopped + Tickets(r, CancellingKeys(r)))
  }
}
