/** The worker's guarded fields and the critical sections that update them in place.
    Each method computes the function of WorkerState.dfy that the protocol interleaves. */
module Worker {
  import opened ReplayCache
  import opened WorkerState

  /** What an assignment's critical section decided. */
  datatype Verdict = Admitted | Duplicate | ShuttingDown | AlreadyAccepted

  /** `oneShotState`. */
  class OneShotState {
    var accepted: bool
    var completions: nat

    constructor ()
      ensures !accepted && completions == 0
    {
      accepted, completions := false, 0;
    }

    method TryAccept() returns (ok: bool)
      modifies this`accepted
      ensures ok == !old(accepted) && accepted
    {
      if accepted {
        return false;
      }
      accepted := true;
      return true;
    }

    method ResetAcceptance()
      modifies this`accepted
      ensures !accepted
    {
      accepted := false;
    }

    /** The channel is closed by the first call only. */
    method Complete()
      modifies this`completions
      ensures completions == if old(completions) == 0 then 1 else old(completions)
    {
      if completions == 0 {
        completions := 1;
      }
    }
  }

  class Worker {
    const oneShotMode: bool
    const preservesTasks: bool
    const oneShot: OneShotState
    var activeTasks: map<TaskExecution, ActiveTask>
    var completedTasks: map<TaskExecution, bool>
    var completedExecutions: seq<TaskExecution>
    var contexts: map<nat, TaskContext>
    var doneCloses: multiset<nat>
    var stopped: set<Ticket>
    var shuttingDown: bool
    var ctxDone: bool
    var taskWG: int
    var nextId: nat

    constructor (oneShotMode: bool, preservesTasks: bool)
      ensures Reg() == Registry(map[], Empty(), map[], multiset{}, {})
      ensures !shuttingDown && !ctxDone && taskWG == 0 && fresh(oneShot) && !oneShot.accepted
    {
      this.oneShotMode, this.preservesTasks := oneShotMode, preservesTasks;
      oneShot := new OneShotState();
      activeTasks, completedTasks, completedExecutions := map[], map[], [];
      contexts, doneCloses, stopped := map[], multiset{}, {};
      shuttingDown, ctxDone, taskWG, nextId := false, false, 0, 0;
    }

    function Reg(): Registry
      reads this
    {
      Registry(activeTasks, Cache(completedTasks, completedExecutions), contexts, doneCloses, stopped)
    }

    predicate Closed()
      reads this
    {
      shuttingDown || ctxDone
    }

    /** The cache field and its eviction list are one bounded FIFO record. */
    method RememberCompletedLocked(key: TaskExecution, cancellationAccepted: bool)
      modifies this`completedTasks, this`completedExecutions
      ensures Reg() == Remember(old(Reg()), key, cancellationAccepted)
    {
      if key.executionID == "" {
        return;
      }
      if key !in completedTasks {
        completedExecutions := completedExecutions + [key];
        if |completedExecutions| > CACHE_SIZE {
          completedTasks := completedTasks - {completedExecutions[0]};
          completedExecutions := completedExecutions[1..];
        }
      }
      completedTasks := completedTasks[key := cancellationAccepted];
    }

    method StartTaskCancellationLocked(key: TaskExecution) returns (started: set<Ticket>)
      modifies this`activeTasks, this`contexts
      ensures Reg() == StartCancellations(old(Reg()), {key})
      ensures started == Tickets(old(Reg()), Cancellable(old(Reg()), {key}))
    {
      ghost var r := Reg();
      if key !in activeTasks || activeTasks[key].cancelling {
        assert Cancellable(r, {key}) == {};
        StartNone(r, {key});
        return {};
      }
      var task := activeTasks[key];
      assert Cancellable(r, {key}) == {key};
      StartSingle(r, key);
      activeTasks := activeTasks[key := task.(source := UserSource, cancelling := true)];
      if task.id in contexts {
        contexts := contexts[task.id := contexts[task.id].Cancel()];
      }
      started := {Ticket(task.id, key)};
      assert Tickets(r, {key}) == started;
    }

    /** One request: every cancellable entry of the run, or the one execution it names,
        with a placeholder when that execution already completed without an accepted
        cancellation. Nothing happens after shutdown began or for an accepted replay. */
    method HandleTaskCancellation(key: TaskExecution) returns (started: set<Ticket>)
      modifies this`activeTasks, this`contexts, this`doneCloses, this`nextId
      ensures Closed() ==> Reg() == old(Reg()) && started == {}
      ensures !Closed() ==> Reg() == RequestCancellation(old(Reg()), key, old(nextId))
      ensures !Closed() ==> started == StartedTickets(old(Reg()), key, old(nextId))
    {
      started := {};
      if shuttingDown || ctxDone {
        return;
      }
      ghost var r := Reg();
      if key.executionID == "" {
        started := CancelRun(key.taskID);
        return;
      }
      if key in completedTasks {
        if completedTasks[key] {
          StartNone(r, {});
          assert Cancellable(r, {}) == {};
          return;
        }
        if key !in activeTasks {
          activeTasks := activeTasks[key := ActiveTask(nextId, NoSource, false, false, false)];
          doneCloses := doneCloses + multiset{nextId};
          nextId := nextId + 1;
        }
      }
      assert Reg() == Placeholder(r, key, old(nextId));
      started := StartTaskCancellationLocked(key);
    }

    method CancelRun(taskID: string) returns (started: set<Ticket>)
      modifies this`activeTasks, this`contexts
      ensures Reg() == StartCancellations(old(Reg()), RunWide(old(Reg()), taskID))
      ensures started == Tickets(old(Reg()), Cancellable(old(Reg()), RunWide(old(Reg()), taskID)))
    {
      ghost var r := Reg();
      ghost var done: set<TaskExecution> := {};
      started := {};
      var remaining := activeTasks.Keys;
      StartNone(r, {});
      assert Cancellable(r, {}) == {};
      while remaining != {}
        invariant remaining <= r.active.Keys && done == RunWide(r, taskID) - remaining
        invariant Reg() == StartCancellations(r, done)
        invariant started == Tickets(r, Cancellable(r, done))
        decreases remaining
      {
        var candidate :| candidate in remaining;
        remaining := remaining - {candidate};
        if candidate.taskID == taskID {
          var more := StartTaskCancellationLocked(candidate);
          StartOneMore(r, done, candidate);
          done := done + {candidate};
          started := started + more;
        }
      }
      assert done == RunWide(r, taskID);
    }

    /** The first critical section of an assignment. */
    method AdmitAssignment(key: TaskExecution) returns (verdict: Verdict)
      modifies this`taskWG, oneShot`accepted
      ensures Reg() == old(Reg())
      ensures verdict.Duplicate? <==> key in old(activeTasks) || key in old(completedTasks)
      ensures verdict.ShuttingDown? <==> !verdict.Duplicate? && (shuttingDown || ctxDone)
      ensures verdict.AlreadyAccepted? <==> !verdict.Duplicate? && !verdict.ShuttingDown? && oneShotMode && old(oneShot.accepted)
      ensures taskWG == old(taskWG) + if verdict.Admitted? then 1 else 0
      ensures oneShot.accepted == (old(oneShot.accepted) || (oneShotMode && verdict.Admitted?))
    {
      if key in activeTasks || key in completedTasks {
        return Duplicate;
      }
      if shuttingDown || ctxDone {
        return ShuttingDown;
      }
      if oneShotMode {
        var ok := oneShot.TryAccept();
        if !ok {
          return AlreadyAccepted;
        }
      }
      taskWG := taskWG + 1;
      return Admitted;
    }

    /** The second critical section, after the slot was acquired. */
    method PublishAssignment(key: TaskExecution, id: nat) returns (verdict: Verdict)
      modifies this`activeTasks, this`contexts, oneShot`accepted
      ensures verdict.ShuttingDown? <==> shuttingDown || ctxDone
      ensures verdict.Duplicate? <==> !verdict.ShuttingDown? && (key in old(activeTasks) || key in old(completedTasks))
      ensures !verdict.AlreadyAccepted?
      ensures activeTasks == if verdict.Admitted? then old(activeTasks)[key := ActiveTask(id, NoSource, false, false, true)] else old(activeTasks)
      ensures contexts == if verdict.Admitted? then old(contexts)[id := TaskContext(false, Live)] else old(contexts)
      ensures Reg() == if verdict.Admitted? then Insert(old(Reg()), key, id) else old(Reg())
      ensures oneShot.accepted == (old(oneShot.accepted) && !(oneShotMode && verdict.ShuttingDown?))
    {
      if shuttingDown || ctxDone {
        if oneShotMode {
          oneShot.ResetAcceptance();
        }
        return ShuttingDown;
      }
      if key in activeTasks || key in completedTasks {
        return Duplicate;
      }
      contexts := contexts[id := TaskContext(false, Live)];
      activeTasks := activeTasks[key := ActiveTask(id, NoSource, false, false, true)];
      return Admitted;
    }

    method MarkSpawnedTask(key: TaskExecution)
      modifies this`activeTasks
      ensures Reg() == MarkSpawned(old(Reg()), key)
    {
      if key in activeTasks {
        activeTasks := activeTasks[key := activeTasks[key].(spawned := true)];
      }
    }

    /** The deferred bookkeeping of `executeTask`. */
    method SettleExecution(key: TaskExecution, interrupted: bool)
      modifies this`activeTasks, this`completedTasks, this`completedExecutions, this`doneCloses
      ensures Reg() == Settle(old(Reg()), key, interrupted)
    {
      if key in activeTasks {
        var task := activeTasks[key];
        doneCloses := doneCloses + multiset{task.id};
        if !task.spawned && !task.source.UserSource? {
          if !interrupted {
            RememberCompletedLocked(key, false);
          }
          activeTasks := activeTasks - {key};
        }
      }
    }

    method RecordAcceptedCancellation(key: TaskExecution)
      modifies this`activeTasks, this`completedTasks, this`completedExecutions
      ensures Reg() == AcceptCancellation(old(Reg()), key)
    {
      RememberCompletedLocked(key, true);
      activeTasks := activeTasks - {key};
    }

    /** The critical section of `shutdownTasks`: it takes effect once. */
    method StopTasks() returns (first: bool)
      modifies this
      ensures first == !old(shuttingDown) && shuttingDown
      ensures Reg() == if first then StopAll(old(Reg()), preservesTasks) else old(Reg())
    {
      if shuttingDown {
        return false;
      }
      shuttingDown := true;
      first := true;
      ghost var r := Reg();
      StopCancellers();
      if !preservesTasks {
        CancelActiveTasks();
      }
      StopInTwoLoops(r, preservesTasks);
    }

    method StopCancellers()
      modifies this`contexts, this`stopped
      ensures Reg() == StopSome(old(Reg()), preservesTasks, old(Reg()).active.Keys)
    {
      ghost var r := Reg();
      ghost var done: set<TaskExecution> := {};
      var remaining := activeTasks.Keys;
      StopNobody(r, preservesTasks);
      while remaining != {}
        invariant remaining <= r.active.Keys && done == r.active.Keys - remaining
        invariant activeTasks == r.active
        invariant Reg() == StopSome(r, preservesTasks, done)
        decreases remaining
      {
        var key :| key in remaining;
        var task := activeTasks[key];
        remaining := remaining - {key};
        if task.cancelling {
          stopped := stopped + {Ticket(task.id, key)};
        }
        if preservesTasks && task.local && task.id in contexts {
          contexts := contexts[task.id := contexts[task.id].Interrupt()];
        }
        StopOneMore(r, preservesTasks, done, key);
        done := done + {key};
      }
      assert done == r.active.Keys;
    }

    method CancelActiveTasks()
      modifies this`activeTasks, this`contexts
      ensures Reg() == CancelSome(old(Reg()), old(Reg()).active.Keys)
    {
      ghost var r := Reg();
      ghost var done: set<TaskExecution> := {};
      var remaining := activeTasks.Keys;
      CancelNobody(r);
      while remaining != {}
        invariant remaining <= r.active.Keys && done == r.active.Keys - remaining
        invariant activeTasks.Keys == r.active.Keys
        invariant Reg() == CancelSome(r, done)
        decreases remaining
      {
        var key :| key in remaining;
        var task := activeTasks[key];
        remaining := remaining - {key};
        if task.source.NoSource? {
          activeTasks := activeTasks[key := task.(source := ShutdownSource)];
        }
        if task.local && task.id in contexts {
          contexts := contexts[task.id := contexts[task.id].Cancel()];
        }
        CancelOneMore(r, done, key);
        done := done + {key};
      }
      assert done == r.active.Keys;
    }
  }

  // ---------- the loops, one entry at a time ----------

  lemma StartNone(r: Registry, keys: set<TaskExecution>)
    requires Cancellable(r, keys) == {}
    ensures StartCancellations(r, keys) == r
  {
    var r' := StartCancellations(r, keys);
    assert Ids(r, {}) == {};
    assert r'.active == r.active && r'.contexts == r.contexts;
  }

  lemma StartSingle(r: Registry, key: TaskExecution)
    requires key in r.active && !r.active[key].cancelling
    ensures var task := r.active[key];
            StartCancellations(r, {key}) ==
            r.(active := r.active[key := task.(source := UserSource, cancelling := true)],
            contexts := if task.id in r.contexts then r.contexts[task.id := r.contexts[task.id].Cancel()] else r.contexts)
  {
    var task := r.active[key];
    assert Cancellable(r, {key}) == {key};
    assert Ids(r, {key}) == {task.id};
    var r' := StartCancellations(r, {key});
    assert r'.active == r.active[key := task.(source := UserSource, cancelling := true)];
    assert r'.contexts == if task.id in r.contexts then r.contexts[task.id := r.contexts[task.id].Cancel()] else r.contexts;
  }

  /** Cancelling entries one after another is the same as cancelling them together. */
  lemma StartOneMore(r: Registry, done: set<TaskExecution>, key: TaskExecution)
    requires key in r.active && key !in done
    ensures var r1 := StartCancellations(r, done);
            && StartCancellations(r1, {key}) == StartCancellations(r, done + {key})
            && Tickets(r, Cancellable(r, done)) + Tickets(r1, Cancellable(r1, {key})) == Tickets(r, Cancellable(r, done + {key}))
  {
    var r1 := StartCancellations(r, done);
    var one := Cancellable(r1, {key});
    assert one == if r.active[key].cancelling then {} else {key};
    assert Cancellable(r, done + {key}) == Cancellable(r, done) + one;
    assert Ids(r, Cancellable(r, done + {key})) == Ids(r, Cancellable(r, done)) + Ids(r1, one);
    var a, b := StartCancellations(r1, {key}), StartCancellations(r, done + {key});
    assert a.active == b.active;
    assert a.contexts == b.contexts;
    assert Tickets(r, Cancellable(r, done + {key})) == Tickets(r, Cancellable(r, done)) + Tickets(r1, one);
  }

  /** The first shutdown loop over `keys`: stop cancellers, interrupt observation. */
  function StopSome(r: Registry, preserve: bool, keys: set<TaskExecution>): Registry
    requires keys <= r.active.Keys
  {
    var ids := Ids(r, LocalKeys(r) * keys);
    r.(contexts := map i | i in r.contexts ::
         if preserve && i in ids then r.contexts[i].Interrupt() else r.contexts[i],
    stopped := r.stopped + Tickets(r, CancellingKeys(r) * keys))
  }

  /** The second shutdown loop over `keys`: mark and cancel. */
  function CancelSome(r: Registry, keys: set<TaskExecution>): Registry
    requires keys <= r.active.Keys
  {
    var ids := Ids(r, LocalKeys(r) * keys);
    r.(active := map k | k in r.active ::
         if k in keys && r.active[k].source.NoSource? then r.active[k].(source := ShutdownSource) else r.active[k],
    contexts := map i | i in r.contexts :: if i in ids then r.contexts[i].Cancel() else r.contexts[i])
  }

  lemma StopNobody(r: Registry, preserve: bool)
    ensures StopSome(r, preserve, {}) == r
  {
    assert LocalKeys(r) * {} == {} && CancellingKeys(r) * {} == {};
    assert StopSome(r, preserve, {}).contexts == r.contexts;
  }

  lemma CancelNobody(r: Registry)
    ensures CancelSome(r, {}) == r
  {
    assert LocalKeys(r) * {} == {};
    assert CancelSome(r, {}).active == r.active && CancelSome(r, {}).contexts == r.contexts;
  }

  lemma StopOneMore(r: Registry, preserve: bool, done: set<TaskExecution>, key: TaskExecution)
    requires done <= r.active.Keys && key in r.active && key !in done
    ensures var r1, task := StopSome(r, preserve, done), r.active[key];
            StopSome(r, preserve, done + {key}) ==
            r1.(stopped := if task.cancelling then r1.stopped + {Ticket(task.id, key)} else r1.stopped,
            contexts := if preserve && task.local && task.id in r1.contexts then r1.contexts[task.id := r1.contexts[task.id].Interrupt()] else r1.contexts)
  {
    var r1, r2, task := StopSome(r, preserve, done), StopSome(r, preserve, done + {key}), r.active[key];
    assert LocalKeys(r) * (done + {key}) == LocalKeys(r) * done + if task.local then {key} else {};
    assert CancellingKeys(r) * (done + {key}) == CancellingKeys(r) * done + if task.cancelling then {key} else {};
    assert r2.stopped == if task.cancelling then r1.stopped + {Ticket(task.id, key)} else r1.stopped;
    assert Ids(r, LocalKeys(r) * (done + {key})) == Ids(r, LocalKeys(r) * done) + if task.local then {task.id} else {};
    assert r2.contexts == if preserve && task.local && task.id in r1.contexts then r1.contexts[task.id := r1.contexts[task.id].Interrupt()] else r1.contexts;
  }

  lemma CancelOneMore(r: Registry, done: set<TaskExecution>, key: TaskExecution)
    requires done <= r.active.Keys && key in r.active && key !in done
    ensures var r1, task := CancelSome(r, done), r.active[key];
            CancelSome(r, done + {key}) ==
            r1.(active := if task.source.NoSource? then r1.active[key := task.(source := ShutdownSource)] else r1.active,
            contexts := if task.local && task.id in r1.contexts then r1.contexts[task.id := r1.contexts[task.id].Cancel()] else r1.contexts)
  {
    var r1, r2, task := CancelSome(r, done), CancelSome(r, done + {key}), r.active[key];
    assert LocalKeys(r) * (done + {key}) == LocalKeys(r) * done + if task.local then {key} else {};
    assert Ids(r, LocalKeys(r) * (done + {key})) == Ids(r, LocalKeys(r) * done) + if task.local then {task.id} else {};
    assert r2.active == if task.source.NoSource? then r1.active[key := task.(source := ShutdownSource)] else r1.active;
    assert r2.contexts == if task.local && task.id in r1.contexts then r1.contexts[task.id := r1.contexts[task.id].Cancel()] else r1.contexts;
  }

  /** The two loops together are the shutdown of the protocol. */
  lemma StopInTwoLoops(r: Registry, preserve: bool)
    ensures var r1 := StopSome(r, preserve, r.active.Keys);
            && (preserve ==> r1 == StopAll(r, true))
            && (!preserve ==> CancelSome(r1, r1.active.Keys) == StopAll(r, false))
  {
    var all := r.active.Keys;
    var r1 := StopSome(r, preserve, all);
    assert LocalKeys(r) * all == LocalKeys(r) && CancellingKeys(r) * all == CancellingKeys(r);
    if preserve {
      assert StopAll(r, true).active == r.active;
      assert StopAll(r, true).contexts == r1.contexts;
    } else {
      assert r1.contexts == r.contexts;
      assert LocalKeys(r1) == LocalKeys(r);
      assert CancelSome(r1, all).active == StopAll(r, false).active;
      assert CancelSome(r1, all).contexts == StopAll(r, false).contexts;
    }
  }
}
