/** The whole worker: task and standby lifecycles sharing the shutdown gate, the
    semaphores and the wait group. */
module WorkerMachine {
  import opened ReplayCache
  import opened WorkerState
  import opened WorkerProtocol
  import opened WorkerInvariant
  import opened WorkerSteps
  import opened WorkerReplay
  import opened WorkerOrigins
  import S = StandbyProtocol

  /** How far `shutdownTasks` has come. A wait ends clean, or by its timeout. */
  datatype Shutdown =
    | NotShutDown
    | Waiting(taskDones: set<nat>, standbyDones: set<nat>)
    | ShutDown(clean: bool)

  datatype State = State(
    cfg: Config,
    gate: Gate,
    latch: Latch,
    tasks: TaskSide,
    standbys: S.StandbySide,
    taskHeld: int,
    standbyHeld: int,
    waitGroup: int,
    shutdown: Shutdown)

  datatype Step =
    | Task(task: TaskStep)
    | Standby(standby: S.StandbyStep)
    | CancelWorkerContext
    | ShutdownTasks
    | WaitReturns(clean: bool)

  predicate TaskUnitFree(s: State) {
    s.cfg.taskLimit == 0 || s.taskHeld < s.cfg.taskLimit
  }

  predicate StandbyUnitFree(s: State) {
    if s.cfg.standbyLimit > 0 then s.standbyHeld < s.cfg.standbyLimit else TaskUnitFree(s)
  }

  function EnvOf(s: State): Env {
    Env(s.cfg, s.gate, TaskUnitFree(s), s.latch)
  }

  /** Units that a task step takes from the task semaphore (negative: returns). */
  function SlotDelta(e: Env, step: TaskStep): int {
    if e.cfg.taskLimit == 0 || !step.Thread? then 0
    else if step.op.TryAcquire? && e.free then 1
    else if step.op.ReturnSlot? then -1
    else 0
  }

  function GroupDelta(e: Env, ts: TaskSide, step: TaskStep): int
    requires Enabled(e, ts, step)
  {
    if !step.Thread? then 0
    else if step.op.FirstCheck? && NextPhase(e, ts.reg, step.t, ts.threads[step.t], step.op).Admitted? then 1
    else if step.op.LeaveWaitGroup? then -1
    else 0
  }

  function UnitDelta(step: S.StandbyStep): int {
    if step.Create? then 1 else if step.Run? && step.op.ReturnUnit? then -1 else 0
  }

  function StandbyGroupDelta(step: S.StandbyStep): int {
    if step.Create? then 1 else if step.Run? && step.op.LeaveWaitGroup? then -1 else 0
  }

  predicate DoneClosed(ss: S.StandbySide, t: nat) {
    t in ss.threads && (ss.threads[t].phase.DoneClosed? || ss.threads[t].phase.Finished?)
  }

  /** The wait of `shutdownTasks`: a backend that preserves its tasks only waits for
      their observers, any other waits for the whole group. */
  predicate WaitOver(s: State)
    requires s.shutdown.Waiting?
  {
    if s.cfg.preserves then
      && (forall i :: i in s.shutdown.taskDones ==> s.tasks.reg.doneCloses[i] > 0)
      && (forall t :: t in s.shutdown.standbyDones ==> DoneClosed(s.standbys, t))
    else
      s.waitGroup == 0
  }

  predicate StepEnabled(s: State, step: Step) {
    match step
    case Task(t) => Enabled(EnvOf(s), s.tasks, t)
    case Standby(b) => S.StandbyEnabled(s.cfg, s.gate, StandbyUnitFree(s), s.standbys, b)
    case CancelWorkerContext => true
    case ShutdownTasks => true
    case WaitReturns(clean) => s.shutdown.Waiting? && (clean ==> WaitOver(s))
  }

  function ListedThreads(ss: S.StandbySide): set<nat> {
    set id | id in ss.sandboxes :: ss.sandboxes[id]
  }

  function ApplyStep(s: State, step: Step): State
    requires StepEnabled(s, step)
  {
    match step
    case Task(t) =>
      var e := EnvOf(s);
      s.(tasks := Apply(e, s.tasks, t),
      latch := ApplyLatch(e, s.tasks, t),
      taskHeld := s.taskHeld + SlotDelta(e, t),
      waitGroup := s.waitGroup + GroupDelta(e, s.tasks, t))
    case Standby(b) =>
      var shared := s.cfg.standbyLimit == 0;
      s.(standbys := S.ApplyStandby(s.cfg, s.gate, StandbyUnitFree(s), s.standbys, b),
      taskHeld := s.taskHeld + (if shared && s.cfg.taskLimit > 0 then UnitDelta(b) else 0),
      standbyHeld := s.standbyHeld + (if shared then 0 else UnitDelta(b)),
      waitGroup := s.waitGroup + StandbyGroupDelta(b))
    case CancelWorkerContext => s.(gate := s.gate.(ctxDone := true))
    case ShutdownTasks =>
      if s.gate.shuttingDown then s
      else
        s.(gate := s.gate.(shuttingDown := true),
        tasks := ApplyStop(s.cfg, s.tasks),
        standbys := S.StopStandbys(s.cfg, s.standbys),
        shutdown :=
          if s.tasks.reg.active == map[] && s.standbys.sandboxes == map[] then ShutDown(true)
          else Waiting(Ids(s.tasks.reg, LocalKeys(s.tasks.reg)), ListedThreads(s.standbys)))
    case WaitReturns(clean) => s.(shutdown := ShutDown(clean))
  }

  ghost predicate Init(s: State) {
    && ValidConfig(s.cfg)
    && s == State(s.cfg, Gate(false, false), Latch(false, false), InitTasks(), S.InitStandbys(), 0, 0, 0, NotShutDown)
  }

  ghost predicate Next(s: State, s': State) {
    exists step :: StepEnabled(s, step) && s' == ApplyStep(s, step)
  }

  // ---------- counting ----------

  function Holders<T>(m: map<nat, T>, p: T -> bool): set<nat> {
    set i | i in m && p(m[i])
  }

  lemma HoldersUpdate<T>(m: map<nat, T>, i: nat, v: T, p: T -> bool)
    ensures |Holders(m[i := v], p)| ==
            |Holders(m, p)| - (if i in m && p(m[i]) then 1 else 0) + (if p(v) then 1 else 0)
  {
    var rest := Holders(m, p) - {i};
    assert Holders(m[i := v], p) == if p(v) then rest + {i} else rest;
    assert Holders(m, p) == if i in m && p(m[i]) then rest + {i} else rest;
  }

  predicate TaskHoldsSlot(th: TaskThread) { HoldsSlot(th.phase) }
  predicate TaskHoldsGroup(th: TaskThread) { HoldsWaitGroup(th.phase) }
  predicate StandbyHoldsUnit(th: S.StandbyThread) { S.HoldsUnit(th.phase) }
  predicate StandbyHoldsGroup(th: S.StandbyThread) { S.HoldsGroup(th.phase) }

  function TaskSlots(ts: TaskSide): nat { |Holders(ts.threads, TaskHoldsSlot)| }
  function TaskGroup(ts: TaskSide): nat { |Holders(ts.threads, TaskHoldsGroup)| }
  function StandbyUnits(ss: S.StandbySide): nat { |Holders(ss.threads, StandbyHoldsUnit)| }
  function StandbyGroup(ss: S.StandbySide): nat { |Holders(ss.threads, StandbyHoldsGroup)| }

  /** Every unit and every wait-group count is held by exactly one thread. */
  ghost predicate CountersOK(s: State) {
    && s.taskHeld == (if s.cfg.taskLimit == 0 then 0
                      else TaskSlots(s.tasks) + (if s.cfg.standbyLimit == 0 then StandbyUnits(s.standbys) else 0))
    && s.standbyHeld == (if s.cfg.standbyLimit == 0 then 0 else StandbyUnits(s.standbys))
    && s.waitGroup == TaskGroup(s.tasks) + StandbyGroup(s.standbys)
    && (s.cfg.taskLimit > 0 ==> s.taskHeld <= s.cfg.taskLimit)
    && (s.cfg.standbyLimit > 0 ==> s.standbyHeld <= s.cfg.standbyLimit)
  }

  /** How one operation moves its thread in and out of the two counts. */
  lemma OpCounts(e: Env, reg: Registry, t: nat, th: TaskThread, op: Op)
    requires OpEnabled(th.phase, op)
    ensures var th' := Advance(e, reg, t, th, op);
            && (e.cfg.taskLimit > 0 ==>
                  SlotDelta(e, Thread(t, op)) == (if TaskHoldsSlot(th') then 1 else 0) - (if TaskHoldsSlot(th) then 1 else 0))
            && (if op.FirstCheck? && th'.phase.Admitted? then 1 else if op.LeaveWaitGroup? then -1 else 0)
               == (if TaskHoldsGroup(th') then 1 else 0) - (if TaskHoldsGroup(th) then 1 else 0)
  {
  }

  lemma TaskStepCounts(e: Env, ts: TaskSide, step: TaskStep)
    requires Enabled(e, ts, step)
    requires forall i :: i in ts.threads ==> i < ts.next
    ensures e.cfg.taskLimit > 0 ==> TaskSlots(Apply(e, ts, step)) == TaskSlots(ts) + SlotDelta(e, step)
    ensures TaskGroup(Apply(e, ts, step)) == TaskGroup(ts) + GroupDelta(e, ts, step)
  {
    match step
    case Receive(key) =>
      HoldersUpdate(ts.threads, ts.next, TaskThread(key, Received, Start), TaskHoldsSlot);
      HoldersUpdate(ts.threads, ts.next, TaskThread(key, Received, Start), TaskHoldsGroup);
    case Thread(t, op) =>
      var th' := Advance(e, ts.reg, t, ts.threads[t], op);
      OpCounts(e, ts.reg, t, ts.threads[t], op);
      HoldersUpdate(ts.threads, t, th', TaskHoldsSlot);
      HoldersUpdate(ts.threads, t, th', TaskHoldsGroup);
    case _ =>
  }

  lemma RunCounts(ss: S.StandbySide, t: nat, op: S.StandbyOp)
    requires t in ss.threads && S.RunEnabled(ss.threads[t].phase, op)
    ensures var th, th' := ss.threads[t], S.ApplyRun(ss, t, op).threads[t];
            && S.ApplyRun(ss, t, op).threads == ss.threads[t := th']
            && UnitDelta(S.Run(t, op)) == (if StandbyHoldsUnit(th') then 1 else 0) - (if StandbyHoldsUnit(th) then 1 else 0)
            && StandbyGroupDelta(S.Run(t, op)) == (if StandbyHoldsGroup(th') then 1 else 0) - (if StandbyHoldsGroup(th) then 1 else 0)
  {
  }

  lemma StandbyStepCounts(cfg: Config, gate: Gate, free: bool, ss: S.StandbySide, step: S.StandbyStep)
    requires S.StandbyEnabled(cfg, gate, free, ss, step)
    requires forall i :: i in ss.threads ==> i < ss.next
    ensures var ss' := S.ApplyStandby(cfg, gate, free, ss, step);
            && StandbyUnits(ss') == StandbyUnits(ss) + UnitDelta(step)
            && StandbyGroup(ss') == StandbyGroup(ss) + StandbyGroupDelta(step)
  {
    if step.Create? {
      var th := S.StandbyThread(step.id, S.Admitted);
      HoldersUpdate(ss.threads, ss.next, th, StandbyHoldsUnit);
      HoldersUpdate(ss.threads, ss.next, th, StandbyHoldsGroup);
    } else if step.Run? {
      RunCounts(ss, step.t, step.op);
      var th' := S.ApplyRun(ss, step.t, step.op).threads[step.t];
      HoldersUpdate(ss.threads, step.t, th', StandbyHoldsUnit);
      HoldersUpdate(ss.threads, step.t, th', StandbyHoldsGroup);
    } else {
      assert S.ApplyStandby(cfg, gate, free, ss, step).threads == ss.threads;
    }
  }

  // ---------- the invariant ----------

  predicate Executing(ts: TaskSide, i: nat) {
    i in ts.threads && StageOf(ts.threads[i].phase).Holding?
  }

  predicate Sheltering(ss: S.StandbySide, t: nat) {
    t in ss.threads && S.IsListed(ss.threads[t].phase)
  }

  /** A clean shutdown leaves nothing running, and while it waits it knows of
      everything that still runs. */
  ghost predicate ShutdownOK(s: State) {
    && (s.shutdown.NotShutDown? <==> !s.gate.shuttingDown)
    && (s.shutdown.Waiting? ==>
          && (forall i :: Executing(s.tasks, i) ==> i in s.shutdown.taskDones)
          && (forall t :: Sheltering(s.standbys, t) ==> t in s.shutdown.standbyDones))
    && (s.shutdown.ShutDown? && s.shutdown.clean ==>
          && (forall i :: !Executing(s.tasks, i))
          && (forall t :: !Sheltering(s.standbys, t)))
  }

  ghost predicate Inv(s: State) {
    && ValidConfig(s.cfg)
    && RegistryOK(s.cfg, s.gate, s.tasks)
    && ReplayOK(s.gate, s.tasks)
    && OriginsOK(s.cfg, s.gate, s.tasks)
    && OneShotOK(s.cfg, s.latch, s.tasks.threads)
    && S.StandbyOK(s.cfg, s.gate, s.standbys)
    && CountersOK(s)
    && ShutdownOK(s)
  }

  lemma InitInv(s: State)
    requires Init(s)
    ensures Inv(s)
  {
    InitTasksOK(s.cfg);
    assert Holders(s.tasks.threads, TaskHoldsSlot) == {} && Holders(s.tasks.threads, TaskHoldsGroup) == {};
    assert Holders(s.standbys.threads, StandbyHoldsUnit) == {} && Holders(s.standbys.threads, StandbyHoldsGroup) == {};
  }

  lemma InitTasksOK(cfg: Config)
    ensures RegistryOK(cfg, Gate(false, false), InitTasks()) && ReplayOK(Gate(false, false), InitTasks())
    ensures OriginsOK(cfg, Gate(false, false), InitTasks()) && S.StandbyOK(cfg, Gate(false, false), S.InitStandbys())
  {
    assert Views(InitTasks().threads) == map[];
  }

  /** After shutdown no execution and no standby starts, and no record is added. */
  lemma NothingStarts(s: State, step: Step)
    requires s.gate.shuttingDown && StepEnabled(s, step)
    ensures var s' := ApplyStep(s, step);
            && s'.gate.shuttingDown
            && (forall i :: Executing(s'.tasks, i) ==> Executing(s.tasks, i))
            && (forall t :: Sheltering(s'.standbys, t) ==> Sheltering(s.standbys, t))
            && s'.tasks.reg.active.Keys <= s.tasks.reg.active.Keys
            && s'.standbys.sandboxes.Keys <= s.standbys.sandboxes.Keys
            && s'.waitGroup <= s.waitGroup
  {
    match step
    case Task(t) => NoTaskStarts(EnvOf(s), s.tasks, t);
    case Standby(b) => NoStandbyStarts(s.cfg, s.gate, StandbyUnitFree(s), s.standbys, b);
    case _ =>
  }

  lemma NoTaskStarts(e: Env, ts: TaskSide, step: TaskStep)
    requires e.gate.shuttingDown && Enabled(e, ts, step)
    ensures forall i :: Executing(Apply(e, ts, step), i) ==> Executing(ts, i)
    ensures Apply(e, ts, step).reg.active.Keys <= ts.reg.active.Keys
    ensures GroupDelta(e, ts, step) <= 0
  {
    if step.Thread? {
      NoInsert(e, ts.reg, step.t, ts.threads[step.t], step.op);
    }
  }

  lemma NoStandbyStarts(cfg: Config, gate: Gate, free: bool, ss: S.StandbySide, step: S.StandbyStep)
    requires gate.shuttingDown && S.StandbyEnabled(cfg, gate, free, ss, step)
    ensures forall t :: Sheltering(S.ApplyStandby(cfg, gate, free, ss, step), t) ==> Sheltering(ss, t)
    ensures S.ApplyStandby(cfg, gate, free, ss, step).sandboxes.Keys <= ss.sandboxes.Keys
    ensures StandbyGroupDelta(step) <= 0
  {
    if step.Run? {
      S.RunListed(ss, step.t, step.op);
    } else {
      assert S.ApplyStandby(cfg, gate, free, ss, step).threads == ss.threads;
    }
  }

  lemma NoInsert(e: Env, reg: Registry, t: nat, th: TaskThread, op: Op)
    requires e.gate.shuttingDown && OpEnabled(th.phase, op)
    ensures var p := NextPhase(e, reg, t, th, op);
            && (StageOf(p).Holding? ==> StageOf(th.phase).Holding?)
            && !(op.FirstCheck? && p.Admitted?)
    ensures NextRegistry(e, reg, t, th, op).active.Keys <= reg.active.Keys
  {
    if op.Bookkeep? {
      SettleActive(reg, th.key, th.phase.interrupted);
    }
  }

  lemma TaskStepInv(s: State, t: TaskStep)
    requires Inv(s) && StepEnabled(s, Task(t))
    ensures Inv(ApplyStep(s, Task(t)))
  {
    var e := EnvOf(s);
    assert Views(s.tasks.threads).Keys == s.tasks.threads.Keys;
    StepKeepsRegistry(e, s.tasks, t);
    if t.Thread? {
      assert ThreadOK(s.cfg, s.gate, s.tasks.reg, t.t, Views(s.tasks.threads)[t.t]);
    }
    StepKeepsReplay(e, s.tasks, t);
    StepKeepsOrigins(e, s.tasks, t);
    StepKeepsOneShot(e, s.tasks, t);
    TaskStepCounters(s, t);
    if s.gate.shuttingDown {
      NothingStarts(s, Task(t));
    }
  }

  lemma TaskStepCounters(s: State, t: TaskStep)
    requires CountersOK(s) && StepEnabled(s, Task(t))
    requires forall i :: i in s.tasks.threads ==> i < s.tasks.next
    ensures CountersOK(ApplyStep(s, Task(t)))
  {
    TaskStepCounts(EnvOf(s), s.tasks, t);
  }

  lemma StandbyStepCounters(s: State, b: S.StandbyStep)
    requires CountersOK(s) && StepEnabled(s, Standby(b))
    requires forall i :: i in s.standbys.threads ==> i < s.standbys.next
    ensures CountersOK(ApplyStep(s, Standby(b)))
  {
    StandbyStepCounts(s.cfg, s.gate, StandbyUnitFree(s), s.standbys, b);
  }

  lemma StandbyStepInv(s: State, b: S.StandbyStep)
    requires Inv(s) && StepEnabled(s, Standby(b))
    ensures Inv(ApplyStep(s, Standby(b)))
  {
    S.StandbyStepKeeps(s.cfg, s.gate, StandbyUnitFree(s), s.standbys, b);
    StandbyStepCounters(s, b);
    if s.gate.shuttingDown {
      NothingStarts(s, Standby(b));
    }
  }

  /** The shutdown critical section sees every running execution and standby. */
  lemma ShutdownSees(s: State)
    requires Inv(s)
    ensures forall i :: Executing(s.tasks, i) ==> i in Ids(s.tasks.reg, LocalKeys(s.tasks.reg)) && s.tasks.reg.active != map[]
    ensures forall t :: Sheltering(s.standbys, t) ==> t in ListedThreads(s.standbys) && s.standbys.sandboxes != map[]
  {
    forall i | Executing(s.tasks, i)
      ensures i in Ids(s.tasks.reg, LocalKeys(s.tasks.reg)) && s.tasks.reg.active != map[]
    {
      var v := Views(s.tasks.threads)[i];
      assert ThreadOK(s.cfg, s.gate, s.tasks.reg, i, v);
      assert v.key in LocalKeys(s.tasks.reg);
    }
    forall t | Sheltering(s.standbys, t)
      ensures t in ListedThreads(s.standbys) && s.standbys.sandboxes != map[]
    {
      assert s.standbys.threads[t].id in s.standbys.sandboxes;
    }
  }

  lemma ShutdownKnows(s: State, s': State)
    requires !s.gate.shuttingDown && s' == ApplyStep(s, ShutdownTasks)
    requires forall i :: Executing(s.tasks, i) ==> i in Ids(s.tasks.reg, LocalKeys(s.tasks.reg)) && s.tasks.reg.active != map[]
    requires forall t :: Sheltering(s.standbys, t) ==> t in ListedThreads(s.standbys) && s.standbys.sandboxes != map[]
    ensures ShutdownOK(s')
  {
    StopKeepsThreads(s, s');
  }

  lemma StopKeepsThreads(s: State, s': State)
    requires !s.gate.shuttingDown && s' == ApplyStep(s, ShutdownTasks)
    ensures s'.tasks.threads == s.tasks.threads && s'.standbys.threads == s.standbys.threads
    ensures forall i :: Executing(s'.tasks, i) <==> Executing(s.tasks, i)
    ensures forall t :: Sheltering(s'.standbys, t) <==> Sheltering(s.standbys, t)
    ensures CountersOK(s) ==> CountersOK(s')
  {
  }

  lemma ShutdownInv(s: State)
    requires Inv(s) && !s.gate.shuttingDown
    ensures Inv(ApplyStep(s, ShutdownTasks))
  {
    var s' := ApplyStep(s, ShutdownTasks);
    ShutdownSees(s);
    ShutdownKnows(s, s');
    StopKeepsThreads(s, s');
    StopKeepsRegistry(s.cfg, s.gate, s.tasks);
    StopKeepsReplay(s.cfg, s.gate, s.tasks);
    StopKeepsOrigins(s.cfg, s.gate, s.tasks);
    S.StopStandbysKeeps(s.cfg, s.gate, s.standbys);
    assert s'.tasks.threads == s.tasks.threads;
  }

  lemma EmptyGroupIsQuiet(ts: TaskSide, ss: S.StandbySide)
    requires TaskGroup(ts) == 0 && StandbyGroup(ss) == 0
    ensures forall i :: !Executing(ts, i)
    ensures forall t :: !Sheltering(ss, t)
  {
    forall i ensures !Executing(ts, i) {
      assert i !in Holders(ts.threads, TaskHoldsGroup);
    }
    forall t ensures !Sheltering(ss, t) {
      assert t !in Holders(ss.threads, StandbyHoldsGroup);
    }
  }

  /** Observers that are done no longer execute. */
  lemma DoneObserversAreQuiet(s: State)
    requires Inv(s) && s.shutdown.Waiting? && s.cfg.preserves && WaitOver(s)
    ensures forall i :: !Executing(s.tasks, i)
    ensures forall t :: !Sheltering(s.standbys, t)
  {
    var views := Views(s.tasks.threads);
    forall i ensures !Executing(s.tasks, i) {
      assert i in views ==> ThreadOK(s.cfg, s.gate, s.tasks.reg, i, views[i]);
    }
  }

  /** When the wait ends clean, nothing is running. */
  lemma WaitInv(s: State, clean: bool)
    requires Inv(s) && StepEnabled(s, WaitReturns(clean))
    ensures Inv(ApplyStep(s, WaitReturns(clean)))
  {
    if clean {
      if s.cfg.preserves {
        DoneObserversAreQuiet(s);
      } else {
        EmptyGroupIsQuiet(s.tasks, s.standbys);
      }
    }
  }

  /** Every step of the worker keeps the invariant. */
  lemma StepInv(s: State, step: Step)
    requires Inv(s) && StepEnabled(s, step)
    ensures Inv(ApplyStep(s, step))
  {
    match step
    case Task(t) => TaskStepInv(s, t);
    case Standby(b) => StandbyStepInv(s, b);
    case CancelWorkerContext => ContextDoneInv(s);
    case ShutdownTasks =>
      if !s.gate.shuttingDown {
        ShutdownInv(s);
      }
    case WaitReturns(clean) => WaitInv(s, clean);
  }

  lemma ContextDoneInv(s: State)
    requires Inv(s)
    ensures Inv(s.(gate := s.gate.(ctxDone := true)))
  {
    var gate' := s.gate.(ctxDone := true);
    var views := Views(s.tasks.threads);
    forall i | i in views ensures ThreadOK(s.cfg, gate', s.tasks.reg, i, views[i]) {
      assert ThreadOK(s.cfg, s.gate, s.tasks.reg, i, views[i]);
    }
    forall k | k in s.tasks.reg.active
      ensures EntryOK(gate', s.tasks.reg, views, s.tasks.cancellers.Keys, k, s.tasks.reg.active[k])
    {
      assert EntryOK(s.gate, s.tasks.reg, views, s.tasks.cancellers.Keys, k, s.tasks.reg.active[k]);
    }
    SameEntriesKeep(s.gate, gate', s.tasks.reg, s.tasks.reg, views, s.tasks.completions, s.tasks.claims);
    forall i | i in s.tasks.threads ensures StopsOK(s.cfg, gate', s.tasks.requests, s.tasks.claims, i, s.tasks.threads[i]) {
      assert StopsOK(s.cfg, s.gate, s.tasks.requests, s.tasks.claims, i, s.tasks.threads[i]);
    }
    S.GateKeeps(s.cfg, s.gate, gate', s.standbys);
  }
}
