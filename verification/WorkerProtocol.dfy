/** The worker's task lifecycle as a step relation. Every mutex-held region, every
    semaphore or wait-group operation, every send and every backend call is one
    atomic step, and any number of assignment handlers, executions and cancellers
    run at once. */
module WorkerProtocol {
  import opened Options
  import opened ReplayCache
  import opened WorkerState

  /** A zero limit means no semaphore; a zero standby limit shares the task semaphore. */
  datatype Config = Config(oneShot: bool, taskLimit: nat, standbyLimit: nat, preserves: bool, supportsStandbys: bool)

  ghost predicate ValidConfig(cfg: Config) {
    cfg.oneShot ==> cfg.taskLimit == 1
  }

  datatype Outcome = Completed | Errored | Spawned

  datatype Report = ReportCompleted | ReportCancelled | ReportFailed

  /** What had stopped an execution by the time it was looked at. */
  datatype Stop = NotStopped | UserStopped | ObservationStopped

  /** What a thread does and, for an execution that failed, what had stopped it by then: a
      stop is noted when the backend returns and when the failure is classified, and
      whether a user's cancellation had reached the record whenever the worker goes on to
      tell a cancelled execution from a failed one. */
  datatype Event =
    | ClaimSent
    | RejectSent
    | ExecuteCalled
    | ExecuteReturned(outcome: Outcome, stop: Stop)
    | Looked(stop: Stop)
    | SawSource(user: bool)
    | ReportSent(report: Report)
    | Interrupted(stop: Stop)

  /** What a thread has done so far, in order. */
  datatype History = Start | Then(before: History, last: Event) {
    function Add(event: Option<Event>): History {
      match event
      case None => this
      case Some(e) => Then(this, e)
    }
  }

  /** Program counters of `handleTaskAssignment` and then of `executeTask`. */
  datatype Phase =
    | Received | Ignored
    | Admitted | AtCapacity | CapacityReset
    | Acquired | LateShutdown | LateDuplicate
    | SlotReturned(rejecting: bool)
    | Rejecting | Rejected | Dropped
    | Inserted | Claimed
    | Running | Returned(outcome: Outcome) | NotInterrupted | CancelSeen
    | Sending(report: Report)
    | Ended(interrupted: bool) | ContextEnded(interrupted: bool)
    | Settled | SlotFreed | Signalled | Finished

  datatype Stage = Pending | Holding | Released

  /** Where a thread stands towards its `activeTasks` entry: not inserted, inserted
      and not yet settled, or settled. */
  function StageOf(p: Phase): Stage {
    match p
    case Inserted | Claimed | Running | Returned(_) | NotInterrupted | CancelSeen | Sending(_) | Ended(_) | ContextEnded(_) => Holding
    case Settled | SlotFreed | Signalled | Finished => Released
    case _ => Pending
  }

  predicate HoldsSlot(p: Phase) {
    p.Acquired? || p.LateShutdown? || p.LateDuplicate? || StageOf(p).Holding? || p.Settled?
  }

  predicate HoldsWaitGroup(p: Phase) {
    || p.Admitted? || p.AtCapacity? || p.CapacityReset? || p.SlotReturned? || HoldsSlot(p)
    || p.SlotFreed? || p.Signalled?
  }

  /** From a one-shot acceptance until it is handed back. */
  predicate InOneShotWindow(p: Phase) {
    || p.Admitted? || p.AtCapacity? || p.Acquired? || p.LateDuplicate? || p == SlotReturned(false) || p.Dropped?
    || !StageOf(p).Pending?
  }

  datatype TaskThread = TaskThread(key: TaskExecution, phase: Phase, trace: History)

  datatype CancelPhase =
    | WaitingDone | Looping | Calling | CallAccepted | Retrying | Exited(accepted: bool)

  /** How many completions were recorded and how many cancellations requested when an
      execution's entry was inserted. */
  datatype Mark = Mark(completions: nat, requests: nat)

  /** `next` numbers threads and entries; `completions` lists every insertion ever
      made into the completed cache; `cancelCalls` lists every backend CancelTask call;
      `requests` lists every cancellation request that passed the gate; `claims` says when
      each execution's entry was inserted. */
  datatype TaskSide = TaskSide(
    reg: Registry,
    threads: map<nat, TaskThread>,
    cancellers: map<Ticket, CancelPhase>,
    next: nat,
    completions: seq<TaskExecution>,
    cancelCalls: seq<Ticket>,
    requests: seq<TaskExecution>,
    claims: map<nat, Mark>)

  /** The one-shot latch: whether a task was accepted and whether completion was signalled. */
  datatype Latch = Latch(accepted: bool, signalled: bool)

  /** The flags every handler tests first. */
  datatype Gate = Gate(shuttingDown: bool, ctxDone: bool) {
    predicate Closed() { shuttingDown || ctxDone }
  }

  /** What a task step reads besides its own side: `free` says whether the task
      semaphore has a free unit. */
  datatype Env = Env(cfg: Config, gate: Gate, free: bool, latch: Latch)

  datatype CancelMove = SeeDone | SeeStop | Begin | Accept | Fail | Retry | Record

  /** The atomic operations of an assignment handler and of the execution it becomes. */
  datatype Op =
    | FirstCheck
    | TryAcquire
    | ResetAcceptance
    | LeaveWaitGroup
    | SecondCheck
    | ReturnSlot
    | SendReject
    | SendClaim
    | CallBackend
    | BackendReturns(outcome: Outcome)
    | Classify
    | ReadContext
    | ReadSource
    | SendReport
    | EndOwnContext
    | Bookkeep
    | SignalOneShot

  datatype TaskStep =
    | Receive(key: TaskExecution)
    | Thread(t: nat, op: Op)
    | CancelRequest(key: TaskExecution)
    | MoveCanceller(ticket: Ticket, move: CancelMove)
    | PropagateContext(id: nat)

  predicate OpEnabled(p: Phase, op: Op) {
    match op
    case FirstCheck => p.Received?
    case TryAcquire => p.Admitted?
    case ResetAcceptance => p.AtCapacity?
    case LeaveWaitGroup => p.CapacityReset? || p.SlotReturned? || p.Signalled?
    case SecondCheck => p.Acquired?
    case ReturnSlot => p.LateShutdown? || p.LateDuplicate? || p.Settled?
    case SendReject => p.Rejecting?
    case SendClaim => p.Inserted?
    case CallBackend => p.Claimed?
    case BackendReturns(_) => p.Running?
    case Classify => p.Returned?
    case ReadContext => p.NotInterrupted?
    case ReadSource => p.CancelSeen?
    case SendReport => p.Sending?
    case EndOwnContext => p.Ended?
    case Bookkeep => p.ContextEnded?
    case SignalOneShot => p.SlotFreed?
  }

  predicate Enabled(e: Env, ts: TaskSide, step: TaskStep) {
    match step
    case Receive(_) => true
    case Thread(t, op) => t in ts.threads && OpEnabled(ts.threads[t].phase, op)
    case CancelRequest(_) => !e.gate.Closed()
    case MoveCanceller(k, m) => k in ts.cancellers && CancelMoveEnabled(e.gate, ts, k, m)
    // A cancelled worker context reaches the task contexts derived from it a little later.
    case PropagateContext(_) => e.gate.ctxDone && !e.cfg.preserves
  }

  predicate CancelMoveEnabled(gate: Gate, ts: TaskSide, k: Ticket, m: CancelMove)
    requires k in ts.cancellers
  {
    match ts.cancellers[k]
    case WaitingDone => (m.SeeDone? && ts.reg.doneCloses[k.id] > 0) || (m.SeeStop? && CancellerStopped(gate, ts, k))
    case Looping => (m.Begin? && k !in ts.reg.stopped) || (m.SeeStop? && CancellerStopped(gate, ts, k))
    case Calling => m.Accept? || m.Fail?
    case CallAccepted => m.Record?
    case Retrying => m.Retry? || (m.SeeStop? && CancellerStopped(gate, ts, k))
    case Exited(_) => false
  }

  predicate CancellerStopped(gate: Gate, ts: TaskSide, k: Ticket) {
    k in ts.reg.stopped || gate.ctxDone
  }

  /** The context of a thread; every inserted thread has one. */
  function ContextOf(reg: Registry, t: nat): TaskContext {
    if t in reg.contexts then reg.contexts[t] else TaskContext(false, Live)
  }

  function SourceOf(reg: Registry, key: TaskExecution): Source {
    if key in reg.active then reg.active[key].source else NoSource
  }

  function StopAt(reg: Registry, t: nat, key: TaskExecution): Stop {
    if ContextOf(reg, t).observation.InterruptCause? then ObservationStopped
    else if SourceOf(reg, key).UserSource? then UserStopped
    else NotStopped
  }

  /** Where an operation leaves the thread's program counter. */
  function NextPhase(e: Env, reg: Registry, t: nat, th: TaskThread, op: Op): Phase
    requires OpEnabled(th.phase, op)
  {
    match op
    case FirstCheck =>
      if Known(reg, th.key) then Ignored
      else if e.gate.Closed() || (e.cfg.oneShot && e.latch.accepted) then Rejecting
      else Admitted
    case TryAcquire => if e.cfg.taskLimit == 0 || e.free then Acquired else AtCapacity
    case ResetAcceptance => CapacityReset
    case LeaveWaitGroup =>
      if th.phase.Signalled? then Finished else if th.phase == SlotReturned(false) then Dropped else Rejecting
    case SecondCheck =>
      if e.gate.Closed() then LateShutdown else if Known(reg, th.key) then LateDuplicate else Inserted
    case ReturnSlot => if th.phase.Settled? then SlotFreed else SlotReturned(th.phase.LateShutdown?)
    case SendReject => Rejected
    case SendClaim => Claimed
    case CallBackend => Running
    case BackendReturns(o) => Returned(o)
    case Classify =>
      (match th.phase.outcome
       case Completed => Sending(ReportCompleted)
       case Spawned => Ended(false)
       case Errored => if ContextOf(reg, t).observation.InterruptCause? then Ended(true) else NotInterrupted)
    case ReadContext => if ContextOf(reg, t).cancelled then CancelSeen else Sending(ReportFailed)
    case ReadSource => Sending(if SourceOf(reg, th.key).UserSource? then ReportCancelled else ReportFailed)
    case SendReport => Ended(false)
    case EndOwnContext => ContextEnded(th.phase.interrupted)
    case Bookkeep => Settled
    case SignalOneShot => Signalled
  }

  /** What the operation adds to the thread's history. */
  function NewEvent(reg: Registry, t: nat, th: TaskThread, op: Op): Option<Event>
    requires OpEnabled(th.phase, op)
  {
    match op
    case SendReject => Some(RejectSent)
    case SendClaim => Some(ClaimSent)
    case CallBackend => Some(ExecuteCalled)
    case BackendReturns(o) => Some(ExecuteReturned(o, StopAt(reg, t, th.key)))
    case Classify =>
      if !th.phase.outcome.Errored? then None
      else if ContextOf(reg, t).observation.InterruptCause? then Some(Interrupted(StopAt(reg, t, th.key)))
      else Some(Looked(StopAt(reg, t, th.key)))
    case ReadContext => Some(SawSource(SourceOf(reg, th.key).UserSource?))
    case ReadSource => Some(SawSource(SourceOf(reg, th.key).UserSource?))
    case SendReport => Some(ReportSent(th.phase.report))
    case _ => None
  }

  function Advance(e: Env, reg: Registry, t: nat, th: TaskThread, op: Op): TaskThread
    requires OpEnabled(th.phase, op)
  {
    TaskThread(th.key, NextPhase(e, reg, t, th, op), th.trace.Add(NewEvent(reg, t, th, op)))
  }

  /** What the operation does to the guarded state. */
  function NextRegistry(e: Env, reg: Registry, t: nat, th: TaskThread, op: Op): Registry
    requires OpEnabled(th.phase, op)
  {
    match op
    case SecondCheck => if e.gate.Closed() || Known(reg, th.key) then reg else Insert(reg, th.key, t)
    case Classify => if th.phase.outcome.Spawned? then MarkSpawned(reg, th.key) else reg
    case EndOwnContext => EndContext(reg, t)
    case Bookkeep => Settle(reg, th.key, th.phase.interrupted)
    case _ => reg
  }

  /** Whether settling `key` writes the completed cache. */
  predicate Remembers(r: Registry, key: TaskExecution, interrupted: bool) {
    && key in r.active && !r.active[key].spawned && !r.active[key].source.UserSource?
    && !interrupted && key.executionID != ""
  }

  function NextCompletions(ts: TaskSide, th: TaskThread, op: Op): seq<TaskExecution>
    requires OpEnabled(th.phase, op)
  {
    if op.Bookkeep? && Remembers(ts.reg, th.key, th.phase.interrupted)
    then Insertions(ts.reg.completed, ts.completions, th.key)
    else ts.completions
  }

  function ApplyOp(e: Env, ts: TaskSide, t: nat, op: Op): TaskSide
    requires t in ts.threads && OpEnabled(ts.threads[t].phase, op)
  {
    var th := ts.threads[t];
    ts.(threads := ts.threads[t := Advance(e, ts.reg, t, th, op)],
    reg := NextRegistry(e, ts.reg, t, th, op),
    completions := NextCompletions(ts, th, op),
    claims := if Inserts(e, ts.reg, th, op) then ts.claims[t := Mark(|ts.completions|, |ts.requests|)] else ts.claims)
  }

  /** The operation publishes the thread's entry. */
  predicate Inserts(e: Env, reg: Registry, th: TaskThread, op: Op) {
    op.SecondCheck? && !e.gate.Closed() && !Known(reg, th.key)
  }

  function ApplyCancelRequest(ts: TaskSide, key: TaskExecution): TaskSide {
    ts.(reg := RequestCancellation(ts.reg, key, ts.next),
    cancellers := ts.cancellers + (map k | k in StartedTickets(ts.reg, key, ts.next) :: WaitingDone),
    requests := ts.requests + [key],
    next := ts.next + 1)
  }

  function ApplyCancelMove(ts: TaskSide, k: Ticket, m: CancelMove): TaskSide {
    match m
    case SeeDone => ts.(cancellers := ts.cancellers[k := Looping])
    case SeeStop => ts.(cancellers := ts.cancellers[k := Exited(false)])
    case Begin => ts.(cancellers := ts.cancellers[k := Calling], cancelCalls := ts.cancelCalls + [k])
    case Accept => ts.(cancellers := ts.cancellers[k := CallAccepted])
    case Fail => ts.(cancellers := ts.cancellers[k := Retrying])
    case Retry => ts.(cancellers := ts.cancellers[k := Looping])
    case Record =>
      ts.(cancellers := ts.cancellers[k := Exited(true)],
      reg := AcceptCancellation(ts.reg, k.key),
      completions := if k.key.executionID == "" then ts.completions else Insertions(ts.reg.completed, ts.completions, k.key))
  }

  function Apply(e: Env, ts: TaskSide, step: TaskStep): TaskSide
    requires Enabled(e, ts, step)
  {
    match step
    case Receive(key) =>
      ts.(threads := ts.threads[ts.next := TaskThread(key, Received, Start)], next := ts.next + 1)
    case Thread(t, op) => ApplyOp(e, ts, t, op)
    case CancelRequest(key) => ApplyCancelRequest(ts, key)
    case MoveCanceller(k, m) => ApplyCancelMove(ts, k, m)
    case PropagateContext(id) => ts.(reg := EndContext(ts.reg, id))
  }

  /** What a step does to the one-shot latch. */
  function ApplyLatch(e: Env, ts: TaskSide, step: TaskStep): Latch
    requires Enabled(e, ts, step)
  {
    if !e.cfg.oneShot || !step.Thread? then e.latch
    else match step.op
      case FirstCheck =>
        if Known(ts.reg, ts.threads[step.t].key) || e.gate.Closed() then e.latch else e.latch.(accepted := true)
      case ResetAcceptance => e.latch.(accepted := false)
      case SecondCheck => if e.gate.Closed() then e.latch.(accepted := false) else e.latch
      case SignalOneShot => e.latch.(signalled := true)
      case _ => e.latch
  }

  /** The task half of the shutdown critical section. */
  function ApplyStop(cfg: Config, ts: TaskSide): TaskSide {
    ts.(reg := StopAll(ts.reg, cfg.preserves))
  }

  function InitTasks(): TaskSide {
    TaskSide(Registry(map[], Empty(), map[], multiset{}, {}), map[], map[], 0, [], [], [], map[])
  }
}
