/** What becomes of every assignment, record and canceller, in every run: which assignments
    are refused, dropped or run, which records outlive their execution, and when a canceller
    can go on. */
module WorkerAnswers {
  import opened Options
  import opened ReplayCache
  import opened WorkerState
  import opened WorkerProtocol
  import opened WorkerInvariant
  import opened WorkerSteps
  import opened WorkerReplay
  import opened WorkerOrigins
  import opened WorkerMachine
  import opened WorkerTheorems
  import opened WorkerReach
  import S = StandbyProtocol

  // ---------- assignments ----------

  /** The first region ignores an assignment exactly if that very execution is active or
      recorded as completed, refuses any other exactly if the worker is stopping or its
      one-shot latch is taken, and admits the rest. */
  lemma FirstRegionDecides(s: State, t: nat)
    requires t in s.tasks.threads && s.tasks.threads[t].phase.Received?
    ensures var key, tasks := s.tasks.threads[t].key, s.tasks;
            var p := ApplyStep(s, Task(Thread(t, FirstCheck))).tasks.threads[t].phase;
            var known := key in tasks.reg.active || key in tasks.reg.completed.entries;
            var refused := s.gate.shuttingDown || s.gate.ctxDone || (s.cfg.oneShot && s.latch.accepted);
            && (p.Ignored? <==> known)
            && (p.Rejecting? <==> !known && refused)
            && (p.Admitted? <==> !known && !refused)
  {
  }

  /** The second region publishes the assignment's own record exactly if the worker is not
      stopping and that very execution is neither active nor recorded, and changes no record
      otherwise. */
  lemma SecondRegionDecides(s: State, t: nat)
    requires t in s.tasks.threads && s.tasks.threads[t].phase.Acquired?
    ensures var key, tasks := s.tasks.threads[t].key, s.tasks;
            var after := ApplyStep(s, Task(Thread(t, SecondCheck))).tasks;
            var p := after.threads[t].phase;
            var known := key in tasks.reg.active || key in tasks.reg.completed.entries;
            var stopping := s.gate.shuttingDown || s.gate.ctxDone;
            && (p.LateShutdown? <==> stopping)
            && (p.LateDuplicate? <==> !stopping && known)
            && (p.Inserted? <==> !stopping && !known)
            && after.reg.active == (if p.Inserted? then tasks.reg.active[key := ActiveTask(t, NoSource, false, false, true)] else tasks.reg.active)
            && after.reg.completed == tasks.reg.completed
  {
  }

  /** In between, an admitted assignment gets its unit exactly if the limit leaves one. */
  lemma AcquireDecides(run: seq<State>, n: nat, t: nat)
    requires IsRun(run) && n < |run| && t in run[n].tasks.threads && run[n].tasks.threads[t].phase.Admitted?
    ensures var s := run[n];
            var held := |Holders(s.tasks.threads, AssignmentHoldsSlot)| + |Holders(s.tasks.threads, ExecutionHoldsSlot)|
                        + if s.cfg.standbyLimit == 0 then |Holders(s.standbys.threads, RunnerHoldsUnit)| else 0;
            var p := ApplyStep(s, Task(Thread(t, TryAcquire))).tasks.threads[t].phase;
            && (p.Acquired? <==> s.cfg.taskLimit == 0 || held < s.cfg.taskLimit)
            && (p.AtCapacity? <==> s.cfg.taskLimit > 0 && held == s.cfg.taskLimit)
  {
    SlotsConserved(run, n);
  }

  /** On the way to a refusal. */
  predicate Refused(p: Phase) {
    || p.AtCapacity? || p.CapacityReset? || p.LateShutdown? || p == SlotReturned(true) || p.Rejecting? || p.Rejected?
  }

  /** Dropped as a duplicate. */
  predicate Silent(p: Phase) {
    p.Ignored? || p.LateDuplicate? || p == SlotReturned(false) || p.Dropped?
  }

  lemma FateStays(e: Env, reg: Registry, t: nat, th: TaskThread, op: Op)
    requires OpEnabled(th.phase, op) && TraceOK(th)
    ensures var th' := Advance(e, reg, t, th, op);
            && (Refused(th.phase) ==> Refused(th'.phase) && th'.trace == if th'.phase.Rejected? then Then(Start, RejectSent) else Start)
            && (Silent(th.phase) ==> Silent(th'.phase) && th'.trace == Start)
  {
  }

  /** An assignment that finds the worker at capacity, stopping or taken is told so, once,
      and never runs; a duplicate is never answered and never runs. */
  lemma {:induction false} RefusalsAreAnswered(run: seq<State>, m: nat, n: nat, t: nat)
    requires IsRun(run) && m <= n < |run| && t in run[m].tasks.threads
    ensures t in run[n].tasks.threads
    ensures Refused(run[m].tasks.threads[t].phase) ==>
              && Refused(run[n].tasks.threads[t].phase)
              && run[n].tasks.threads[t].trace == if run[n].tasks.threads[t].phase.Rejected? then Then(Start, RejectSent) else Start
    ensures Silent(run[m].tasks.threads[t].phase) ==> Silent(run[n].tasks.threads[t].phase) && run[n].tasks.threads[t].trace == Start
    decreases n
  {
    RunRegistry(run, n);
    assert m == n ==> TraceOK(run[n].tasks.threads[t]);
    if m < n {
      RefusalsAreAnswered(run, m, n - 1, t);
      NextFate(run, n - 1, t);
    }
  }

  lemma NextFate(run: seq<State>, n: nat, t: nat)
    requires IsRun(run) && n + 1 < |run| && t in run[n].tasks.threads
    ensures t in run[n + 1].tasks.threads
    ensures var th, th' := run[n].tasks.threads[t], run[n + 1].tasks.threads[t];
            th' == th || (&& (Refused(th.phase) ==> Refused(th'.phase) && th'.trace == if th'.phase.Rejected? then Then(Start, RejectSent) else Start)
                          && (Silent(th.phase) ==> Silent(th'.phase) && th'.trace == Start))
  {
    RunRegistry(run, n);
    RunNumbers(run, n);
    var s := run[n];
    var step := StepOf(run, n);
    TasksUnder(s, step);
    if step.Task? && step.task.Thread? && step.task.t == t {
      assert TraceOK(s.tasks.threads[t]);
      FateStays(EnvOf(s), s.tasks.reg, t, s.tasks.threads[t], step.task.op);
    }
  }

  // ---------- nothing is stuck ----------

  /** The operation that a program counter calls for. */
  function NextOp(p: Phase): (op: Option<Op>)
    ensures op.Some? ==> OpEnabled(p, op.value)
  {
    match p
    case Received => Some(FirstCheck)
    case Admitted => Some(TryAcquire)
    case AtCapacity => Some(ResetAcceptance)
    case CapacityReset | SlotReturned(_) | Signalled => Some(LeaveWaitGroup)
    case Acquired => Some(SecondCheck)
    case LateShutdown | LateDuplicate | Settled => Some(ReturnSlot)
    case Rejecting => Some(SendReject)
    case Inserted => Some(SendClaim)
    case Claimed => Some(CallBackend)
    case Running => Some(BackendReturns(Completed))
    case Returned(_) => Some(Classify)
    case NotInterrupted => Some(ReadContext)
    case CancelSeen => Some(ReadSource)
    case Sending(_) => Some(SendReport)
    case Ended(_) => Some(EndOwnContext)
    case ContextEnded(_) => Some(Bookkeep)
    case SlotFreed => Some(SignalOneShot)
    case Ignored | Rejected | Dropped | Finished => None
  }

  /** An assignment can go on unless it was ignored, refused, dropped or is over, and the
      backend may return anything. */
  lemma ThreadsGoOn(s: State, t: nat)
    requires t in s.tasks.threads
    ensures var p := s.tasks.threads[t].phase;
            && ((exists op :: StepEnabled(s, Task(Thread(t, op)))) <==> !p.Ignored? && !p.Rejected? && !p.Dropped? && !p.Finished?)
            && (p.Running? ==> forall o :: StepEnabled(s, Task(Thread(t, BackendReturns(o)))))
  {
    var p := s.tasks.threads[t].phase;
    if NextOp(p).Some? {
      assert StepEnabled(s, Task(Thread(t, NextOp(p).value)));
    }
  }

  /** Assignments arrive at any moment, cancellation requests get through exactly while the
      worker is not stopping, and each is on record then. */
  lemma RequestsGetThrough(s: State, key: TaskExecution)
    ensures StepEnabled(s, Task(Receive(key)))
    ensures ApplyStep(s, Task(Receive(key))).tasks.threads == s.tasks.threads[s.tasks.next := TaskThread(key, Received, Start)]
    ensures StepEnabled(s, Task(CancelRequest(key))) <==> !s.gate.shuttingDown && !s.gate.ctxDone
    ensures StepEnabled(s, Task(CancelRequest(key))) ==> ApplyStep(s, Task(CancelRequest(key))).tasks.requests == s.tasks.requests + [key]
  {
  }

  // ---------- the one-shot latch ----------

  /** From a one-shot acceptance until it is handed back. */
  predicate HoldsLatch(th: TaskThread) {
    && !th.phase.Received? && !th.phase.Ignored? && !th.phase.CapacityReset? && !th.phase.LateShutdown?
    && th.phase != SlotReturned(true) && !th.phase.Rejecting? && !th.phase.Rejected?
  }

  ghost predicate LatchHeld(cfg: Config, latch: Latch, threads: map<nat, TaskThread>) {
    cfg.oneShot && latch.accepted ==> exists t :: t in threads && HoldsLatch(threads[t])
  }

  lemma OpMovesLatch(e: Env, ts: TaskSide, t: nat, op: Op)
    requires t in ts.threads && OpEnabled(ts.threads[t].phase, op) && e.cfg.oneShot
    ensures var latch' := ApplyLatch(e, ts, Thread(t, op));
            var was, now := HoldsLatch(ts.threads[t]), HoldsLatch(Advance(e, ts.reg, t, ts.threads[t], op));
            && (latch'.accepted && !e.latch.accepted ==> now)
            && (was && !now ==> !latch'.accepted)
  {
  }

  lemma StepKeepsLatch(e: Env, ts: TaskSide, step: TaskStep)
    requires Enabled(e, ts, step) && LatchHeld(e.cfg, e.latch, ts.threads) && ts.next !in ts.threads
    ensures LatchHeld(e.cfg, ApplyLatch(e, ts, step), Apply(e, ts, step).threads)
  {
    var latch', threads' := ApplyLatch(e, ts, step), Apply(e, ts, step).threads;
    if e.cfg.oneShot && latch'.accepted {
      if step.Thread? {
        OpMovesLatch(e, ts, step.t, step.op);
      }
      if e.latch.accepted {
        var t :| t in ts.threads && HoldsLatch(ts.threads[t]);
        assert t in threads' && HoldsLatch(threads'[t]);
      } else {
        assert step.t in threads' && HoldsLatch(threads'[step.t]);
      }
    }
  }

  lemma {:induction false} RunLatch(run: seq<State>, n: nat)
    requires IsRun(run) && n < |run|
    ensures LatchHeld(run[n].cfg, run[n].latch, run[n].tasks.threads)
  {
    if n > 0 {
      RunLatch(run, n - 1);
      RunNumbers(run, n - 1);
      var s := run[n - 1];
      var step := StepOf(run, n - 1);
      if step.Task? {
        StepKeepsLatch(EnvOf(s), s.tasks, step.task);
      }
    }
  }

  lemma LatchPhases(th: TaskThread)
    ensures InOneShotWindow(th.phase) <==> HoldsLatch(th)
  {
  }

  /** The latch of a one-shot worker is taken exactly while some assignment holds it: one
      that was accepted and was not refused for capacity or shutdown since. */
  lemma LatchIsExact(run: seq<State>, n: nat)
    requires IsRun(run) && n < |run| && run[n].cfg.oneShot
    ensures run[n].latch.accepted <==> exists t :: t in run[n].tasks.threads && HoldsLatch(run[n].tasks.threads[t])
  {
    RunInv(run, n);
    RunLatch(run, n);
    if t :| t in run[n].tasks.threads && HoldsLatch(run[n].tasks.threads[t]) {
      LatchPhases(run[n].tasks.threads[t]);
    }
  }

  // ---------- records and cancellers ----------

  /** The backend reported a spawned task and the record says so. */
  predicate Dispatched(th: TaskThread) {
    (th.phase.Ended? || th.phase.ContextEnded?) && ReturnedTrace(th.trace, Spawned)
  }

  /** What keeps the record of a settled execution: that it was spawned or cancelled by a
      user, until the backend accepts the cancellation. */
  predicate Kept(cancellers: map<Ticket, CancelPhase>, i: nat, th: TaskThread) {
    var c := Ticket(i, th.key);
    && (ReturnedTrace(th.trace, Spawned) || c in cancellers)
    && (c in cancellers ==> cancellers[c] != Exited(true))
  }

  ghost predicate RecordOK(reg: Registry, cancellers: map<Ticket, CancelPhase>, i: nat, th: TaskThread) {
    match StageOf(th.phase)
    case Pending => true
    case Holding => th.key in reg.active ==> (reg.active[th.key].spawned <==> Dispatched(th))
    case Released => Owns(reg, i, th.key) <==> Kept(cancellers, i, th)
  }

  ghost predicate RecordsOK(reg: Registry, cancellers: map<Ticket, CancelPhase>, threads: map<nat, TaskThread>) {
    forall i :: i in threads ==> RecordOK(reg, cancellers, i, threads[i])
  }

  /** A canceller ends with an acceptance, which removed its record, or because the worker
      stops. */
  ghost predicate ExitsOK(gate: Gate, reg: Registry, cancellers: map<Ticket, CancelPhase>) {
    && (forall c :: c in cancellers && cancellers[c] == Exited(true) ==> !(c.key in reg.active && reg.active[c.key].id == c.id))
    && (forall c :: c in cancellers && cancellers[c] == Exited(false) ==> gate.Closed())
    && (reg.stopped != {} ==> gate.shuttingDown)
  }

  /** The context of an execution that is over has ended. */
  ghost predicate ContextsOver(reg: Registry, threads: map<nat, TaskThread>) {
    forall i :: i in threads && (threads[i].phase.ContextEnded? || StageOf(threads[i].phase).Released?) ==>
      ContextOf(reg, i).cancelled && !ContextOf(reg, i).observation.Live?
  }

  ghost predicate AnswersOK(gate: Gate, ts: TaskSide) {
    RecordsOK(ts.reg, ts.cancellers, ts.threads) && ExitsOK(gate, ts.reg, ts.cancellers) && ContextsOver(ts.reg, ts.threads)
  }

  /** An operation touches no record but its own. */
  lemma OpFrame(e: Env, reg: Registry, t: nat, th: TaskThread, op: Op, k: TaskExecution)
    requires OpEnabled(th.phase, op) && k != th.key
    ensures var active, active' := reg.active, NextRegistry(e, reg, t, th, op).active;
            (k in active' <==> k in active) && (k in active ==> active'[k] == active[k])
  {
    if op.Bookkeep? {
      SettleActive(reg, th.key, th.phase.interrupted);
    }
  }

  lemma OwnRecord(e: Env, reg: Registry, t: nat, th: TaskThread, op: Op)
    requires OpEnabled(th.phase, op) && TraceOK(th) && StageOf(th.phase).Holding? && !op.Bookkeep?
    requires th.key in reg.active && (reg.active[th.key].spawned <==> Dispatched(th))
    ensures var th', reg' := Advance(e, reg, t, th, op), NextRegistry(e, reg, t, th, op);
            && StageOf(th'.phase).Holding?
            && th.key in reg'.active && (reg'.active[th.key].spawned <==> Dispatched(th'))
  {
  }

  lemma OwnSettle(reg: Registry, cancellers: map<Ticket, CancelPhase>, t: nat, th: TaskThread, th': TaskThread)
    requires Owns(reg, t, th.key) && th.phase.ContextEnded? && th'.phase.Settled? && th'.key == th.key && th'.trace == th.trace
    requires reg.active[th.key].spawned <==> Dispatched(th)
    requires reg.active[th.key].source.UserSource? <==> Ticket(t, th.key) in cancellers
    requires Ticket(t, th.key) in cancellers ==> cancellers[Ticket(t, th.key)] != Exited(true)
    ensures RecordOK(Settle(reg, th.key, th.phase.interrupted), cancellers, t, th')
  {
    SettleFacts(reg, th.key, th.phase.interrupted);
  }

  lemma OwnOpKeepsRecord(e: Env, ts: TaskSide, t: nat, op: Op)
    requires RegistryOK(e.cfg, e.gate, ts) && RecordsOK(ts.reg, ts.cancellers, ts.threads) && ExitsOK(e.gate, ts.reg, ts.cancellers)
    requires t in ts.threads && OpEnabled(ts.threads[t].phase, op)
    ensures RecordOK(NextRegistry(e, ts.reg, t, ts.threads[t], op), ts.cancellers, t, Advance(e, ts.reg, t, ts.threads[t], op))
  {
    var th, views := ts.threads[t], Views(ts.threads);
    assert RecordOK(ts.reg, ts.cancellers, t, th);
    assert ThreadOK(e.cfg, e.gate, ts.reg, t, views[t]) && TraceOK(th);
    match StageOf(th.phase)
    case Pending =>
      OpStage(e, ts.reg, t, th, op);
    case Holding =>
      if op.Bookkeep? {
        assert EntryOK(e.gate, ts.reg, views, ts.cancellers.Keys, th.key, ts.reg.active[th.key]);
        OwnSettle(ts.reg, ts.cancellers, t, th, Advance(e, ts.reg, t, th, op));
      } else {
        OwnRecord(e, ts.reg, t, th, op);
      }
    case Released =>
      ReleasedStays(e, ts.reg, t, th, op);
      ReleasedLeavesRecords(e, ts.reg, t, th, op);
  }

  lemma ReleasedLeavesRecords(e: Env, reg: Registry, t: nat, th: TaskThread, op: Op)
    requires OpEnabled(th.phase, op) && !StageOf(th.phase).Holding? && !Inserts(e, reg, th, op)
    ensures NextRegistry(e, reg, t, th, op).active == reg.active
  {
  }

  lemma OtherKeepsRecord(e: Env, ts: TaskSide, t: nat, op: Op, i: nat)
    requires RegistryOK(e.cfg, e.gate, ts) && RecordsOK(ts.reg, ts.cancellers, ts.threads)
    requires t in ts.threads && OpEnabled(ts.threads[t].phase, op) && i in ts.threads && i != t
    ensures RecordOK(NextRegistry(e, ts.reg, t, ts.threads[t], op), ts.cancellers, i, ts.threads[i])
  {
    var th, views, reg' := ts.threads[t], Views(ts.threads), NextRegistry(e, ts.reg, t, ts.threads[t], op);
    assert RecordOK(ts.reg, ts.cancellers, i, ts.threads[i]);
    if ts.threads[i].key != th.key {
      OpFrame(e, ts.reg, t, th, op, ts.threads[i].key);
    } else if StageOf(ts.threads[i].phase).Holding? {
      SameKeyApart(e, ts, t, op, i);
    } else {
      assert ThreadOK(e.cfg, e.gate, ts.reg, t, views[t]);
      SameKeyOwner(e, ts.reg, t, th, op, i);
    }
  }

  /** A record under the key of an operating thread is that thread's, or does not change. */
  lemma SameKeyOwner(e: Env, reg: Registry, t: nat, th: TaskThread, op: Op, i: nat)
    requires OpEnabled(th.phase, op) && ThreadOK(e.cfg, e.gate, reg, t, ViewOf(th)) && i != t
    ensures Owns(NextRegistry(e, reg, t, th, op), i, th.key) <==> Owns(reg, i, th.key)
  {
    if op.Bookkeep? {
      SettleFacts(reg, th.key, th.phase.interrupted);
    } else if !StageOf(th.phase).Holding? && !Inserts(e, reg, th, op) {
      ReleasedLeavesRecords(e, reg, t, th, op);
    }
  }

  lemma OpKeepsExits(e: Env, ts: TaskSide, t: nat, op: Op)
    requires RegistryOK(e.cfg, e.gate, ts) && ExitsOK(e.gate, ts.reg, ts.cancellers)
    requires t in ts.threads && OpEnabled(ts.threads[t].phase, op)
    ensures ExitsOK(e.gate, NextRegistry(e, ts.reg, t, ts.threads[t], op), ts.cancellers)
  {
    var th, views := ts.threads[t], Views(ts.threads);
    var reg' := NextRegistry(e, ts.reg, t, th, op);
    OpReaches(e, ts.reg, t, th, op);
    assert ThreadOK(e.cfg, e.gate, ts.reg, t, views[t]);
    forall c | c in ts.cancellers && ts.cancellers[c] == Exited(true)
      ensures !(c.key in reg'.active && reg'.active[c.key].id == c.id)
    {
      assert CancellerOK(ts.reg, views, c, ts.cancellers[c]);
      if c.key != th.key {
        OpFrame(e, ts.reg, t, th, op, c.key);
      } else {
        OwnIds(e, ts.reg, t, th, op);
      }
    }
  }

  /** A record under the thread's own key keeps its identifier, or is the thread's new one. */
  lemma OwnIds(e: Env, reg: Registry, t: nat, th: TaskThread, op: Op)
    requires OpEnabled(th.phase, op)
    ensures var active, active' := reg.active, NextRegistry(e, reg, t, th, op).active;
            th.key in active' ==>
              || (th.key in active && active'[th.key].id == active[th.key].id)
              || (active'[th.key].id == t && StageOf(th.phase).Pending?)
  {
    if op.Bookkeep? {
      SettleActive(reg, th.key, th.phase.interrupted);
    }
  }

  lemma OpKeepsOver(e: Env, ts: TaskSide, t: nat, op: Op)
    requires RegistryOK(e.cfg, e.gate, ts) && ContextsOver(ts.reg, ts.threads)
    requires t in ts.threads && OpEnabled(ts.threads[t].phase, op)
    ensures ContextsOver(ApplyOp(e, ts, t, op).reg, ApplyOp(e, ts, t, op).threads)
  {
    var th, ts' := ts.threads[t], ApplyOp(e, ts, t, op);
    assert ThreadOK(e.cfg, e.gate, ts.reg, t, Views(ts.threads)[t]);
    OwnContextOver(e, ts.reg, t, th, op);
    forall i | i in ts'.threads && i != t ensures ts'.threads[i] == ts.threads[i] && ContextOf(ts'.reg, i) == ContextOf(ts.reg, i) {
      OpReaches(e, ts.reg, t, th, op);
    }
  }

  lemma OwnContextOver(e: Env, reg: Registry, t: nat, th: TaskThread, op: Op)
    requires OpEnabled(th.phase, op) && ThreadOK(e.cfg, e.gate, reg, t, ViewOf(th))
    requires th.phase.ContextEnded? || StageOf(th.phase).Released? ==> ContextOf(reg, t).cancelled && !ContextOf(reg, t).observation.Live?
    ensures var th', ctx := Advance(e, reg, t, th, op), ContextOf(NextRegistry(e, reg, t, th, op), t);
            th'.phase.ContextEnded? || StageOf(th'.phase).Released? ==> ctx.cancelled && !ctx.observation.Live?
  {
  }

  lemma OpKeepsAnswers(e: Env, ts: TaskSide, t: nat, op: Op)
    requires RegistryOK(e.cfg, e.gate, ts) && AnswersOK(e.gate, ts)
    requires t in ts.threads && OpEnabled(ts.threads[t].phase, op)
    ensures AnswersOK(e.gate, ApplyOp(e, ts, t, op))
  {
    var ts' := ApplyOp(e, ts, t, op);
    OpKeepsExits(e, ts, t, op);
    OpKeepsOver(e, ts, t, op);
    forall i | i in ts'.threads ensures RecordOK(ts'.reg, ts'.cancellers, i, ts'.threads[i]) {
      if i == t {
        OwnOpKeepsRecord(e, ts, t, op);
      } else {
        OtherKeepsRecord(e, ts, t, op, i);
      }
    }
  }

  /** A request makes no record of a thread and drops none, whatever it marks. */
  lemma RequestOwns(reg: Registry, key: TaskExecution, newId: nat, i: nat, k: TaskExecution)
    ensures var reg' := RequestCancellation(reg, key, newId);
            && (Owns(reg', i, k) <==> Owns(reg, i, k))
            && (k in reg.active ==> k in reg'.active && reg'.active[k].spawned == reg.active[k].spawned)
  {
  }

  /** A canceller that is started for a thread's record is the first of a record that is
      there. */
  lemma RequestTicket(cfg: Config, gate: Gate, ts: TaskSide, key: TaskExecution, i: nat)
    requires RegistryOK(cfg, gate, ts) && i in ts.threads
    ensures var c, cancellers' := Ticket(i, ts.threads[i].key), ApplyCancelRequest(ts, key).cancellers;
            || (c !in ts.cancellers && c in cancellers' && cancellers'[c].WaitingDone? && Owns(ts.reg, i, c.key))
            || ((c in cancellers' <==> c in ts.cancellers) && (c in ts.cancellers ==> cancellers'[c] == ts.cancellers[c]))
  {
    var views, mid := Views(ts.threads), Prepared(ts.reg, key, ts.next);
    var c := Ticket(i, ts.threads[i].key);
    AgreePrepared(cfg, gate, ts, key);
    if c in StartedTickets(ts.reg, key, ts.next) {
      StartsAreNew(cfg, gate, mid, views, ts.cancellers, Targets(ts.reg, key), c);
      assert EntryOK(gate, mid, views, ts.cancellers.Keys, c.key, mid.active[c.key]);
      assert Owns(mid, i, c.key);
    }
  }

  lemma RequestRecords(cfg: Config, gate: Gate, ts: TaskSide, key: TaskExecution, i: nat)
    requires RegistryOK(cfg, gate, ts) && i in ts.threads
    requires RecordOK(ts.reg, ts.cancellers, i, ts.threads[i])
    ensures RecordOK(RequestCancellation(ts.reg, key, ts.next), ApplyCancelRequest(ts, key).cancellers, i, ts.threads[i])
  {
    var th := ts.threads[i];
    RequestOwns(ts.reg, key, ts.next, i, th.key);
    RequestTicket(cfg, gate, ts, key, i);
    assert ThreadOK(cfg, gate, ts.reg, i, Views(ts.threads)[i]);
    RecordMoves(ts.reg, RequestCancellation(ts.reg, key, ts.next), ts.cancellers, ApplyCancelRequest(ts, key).cancellers, i, th);
  }

  lemma RecordMoves(reg: Registry, reg': Registry, cancellers: map<Ticket, CancelPhase>, cancellers': map<Ticket, CancelPhase>, i: nat, th: TaskThread)
    requires RecordOK(reg, cancellers, i, th)
    requires Owns(reg', i, th.key) <==> Owns(reg, i, th.key)
    requires StageOf(th.phase).Holding? ==> th.key in reg.active && th.key in reg'.active && reg'.active[th.key].spawned == reg.active[th.key].spawned
    requires
      var c := Ticket(i, th.key);
      || (c !in cancellers && c in cancellers' && cancellers'[c].WaitingDone? && Owns(reg, i, c.key))
      || ((c in cancellers' <==> c in cancellers) && (c in cancellers ==> cancellers'[c] == cancellers[c]))
    ensures RecordOK(reg', cancellers', i, th)
  {
  }

  lemma RequestKeepsExits(cfg: Config, gate: Gate, ts: TaskSide, key: TaskExecution)
    requires RegistryOK(cfg, gate, ts) && ExitsOK(gate, ts.reg, ts.cancellers)
    ensures var ts' := ApplyCancelRequest(ts, key); ExitsOK(gate, ts'.reg, ts'.cancellers)
  {
    RequestExits(gate, ts, key);
  }

  lemma RequestExits(gate: Gate, ts: TaskSide, key: TaskExecution)
    requires ExitsOK(gate, ts.reg, ts.cancellers) && forall c :: c in ts.cancellers ==> c.id < ts.next
    ensures var ts' := ApplyCancelRequest(ts, key); ExitsOK(gate, ts'.reg, ts'.cancellers)
  {
    var ts' := ApplyCancelRequest(ts, key);
    forall c | c in ts'.cancellers && ts'.cancellers[c].Exited? ensures c in ts.cancellers && ts.cancellers[c] == ts'.cancellers[c] {
    }
    forall k | k in ts'.reg.active ensures ts'.reg.active[k].id == ts.next || (k in ts.reg.active && ts.reg.active[k].id == ts'.reg.active[k].id) {
    }
  }

  lemma RequestKeepsAnswers(cfg: Config, gate: Gate, ts: TaskSide, key: TaskExecution)
    requires RegistryOK(cfg, gate, ts) && AnswersOK(gate, ts)
    ensures AnswersOK(gate, ApplyCancelRequest(ts, key))
  {
    var ts' := ApplyCancelRequest(ts, key);
    RequestKeepsExits(cfg, gate, ts, key);
    assert ts'.threads == ts.threads;
    forall i | i in ts.threads ensures RecordOK(ts'.reg, ts'.cancellers, i, ts.threads[i]) {
      assert RecordOK(ts.reg, ts.cancellers, i, ts.threads[i]);
      RequestRecords(cfg, gate, ts, key, i);
    }
    RequestKeepsOver(ts, key);
  }

  lemma RequestKeepsOver(ts: TaskSide, key: TaskExecution)
    requires ContextsOver(ts.reg, ts.threads)
    ensures ContextsOver(ApplyCancelRequest(ts, key).reg, ts.threads)
  {
    forall i ensures var was, now := ContextOf(ts.reg, i), ContextOf(ApplyCancelRequest(ts, key).reg, i); now == was || now == was.Cancel() {
    }
  }

  lemma MoveRecords(cfg: Config, gate: Gate, ts: TaskSide, c: Ticket, m: CancelMove, i: nat)
    requires RegistryOK(cfg, gate, ts) && c in ts.cancellers && CancelMoveEnabled(gate, ts, c, m) && i in ts.threads
    requires RecordOK(ts.reg, ts.cancellers, i, ts.threads[i])
    ensures var ts' := ApplyCancelMove(ts, c, m); RecordOK(ts'.reg, ts'.cancellers, i, ts.threads[i])
  {
    assert CancellerOK(ts.reg, Views(ts.threads), c, ts.cancellers[c]);
    if m.Record? {
      NoHolder(cfg, gate, ts, c);
      AcceptActive(ts.reg, c.key);
      RecordRecords(ts.reg, AcceptCancellation(ts.reg, c.key), ts.cancellers, c, i, ts.threads[i]);
    } else {
      assert ApplyCancelMove(ts, c, m).cancellers == ts.cancellers[c := ApplyCancelMove(ts, c, m).cancellers[c]];
      OtherMoveRecords(ts.reg, ts.cancellers, c, ApplyCancelMove(ts, c, m).cancellers[c], i, ts.threads[i]);
    }
  }

  lemma OtherMoveRecords(reg: Registry, cancellers: map<Ticket, CancelPhase>, c: Ticket, p: CancelPhase, i: nat, th: TaskThread)
    requires c in cancellers && cancellers[c] != Exited(true) && p != Exited(true)
    requires RecordOK(reg, cancellers, i, th)
    ensures RecordOK(reg, cancellers[c := p], i, th)
  {
  }

  lemma RecordRecords(reg: Registry, reg': Registry, cancellers: map<Ticket, CancelPhase>, c: Ticket, i: nat, th: TaskThread)
    requires c in cancellers && c.key in reg.active && reg.active[c.key].id == c.id && reg'.active == reg.active - {c.key}
    requires StageOf(th.phase).Holding? ==> th.key != c.key
    requires RecordOK(reg, cancellers, i, th)
    ensures RecordOK(reg', cancellers[c := Exited(true)], i, th)
  {
  }

  lemma MoveKeepsExits(gate: Gate, ts: TaskSide, c: Ticket, m: CancelMove)
    requires ExitsOK(gate, ts.reg, ts.cancellers)
    requires c in ts.cancellers && CancelMoveEnabled(gate, ts, c, m)
    ensures var ts' := ApplyCancelMove(ts, c, m); ExitsOK(gate, ts'.reg, ts'.cancellers)
  {
    if m.Record? {
      AcceptActive(ts.reg, c.key);
    }
  }

  lemma MoveKeepsAnswers(cfg: Config, gate: Gate, ts: TaskSide, c: Ticket, m: CancelMove)
    requires RegistryOK(cfg, gate, ts) && AnswersOK(gate, ts)
    requires c in ts.cancellers && CancelMoveEnabled(gate, ts, c, m)
    ensures AnswersOK(gate, ApplyCancelMove(ts, c, m))
  {
    var ts' := ApplyCancelMove(ts, c, m);
    MoveKeepsExits(gate, ts, c, m);
    assert ts'.threads == ts.threads && ts'.reg.contexts == ts.reg.contexts;
    forall i | i in ts.threads ensures RecordOK(ts'.reg, ts'.cancellers, i, ts.threads[i]) {
      assert RecordOK(ts.reg, ts.cancellers, i, ts.threads[i]);
      MoveRecords(cfg, gate, ts, c, m, i);
    }
  }

  lemma StepKeepsAnswers(e: Env, ts: TaskSide, step: TaskStep)
    requires RegistryOK(e.cfg, e.gate, ts) && AnswersOK(e.gate, ts) && Enabled(e, ts, step)
    ensures AnswersOK(e.gate, Apply(e, ts, step))
  {
    match step
    case Receive(key) => assert ts.next !in Views(ts.threads);
    case Thread(t, op) => OpKeepsAnswers(e, ts, t, op);
    case CancelRequest(key) => RequestKeepsAnswers(e.cfg, e.gate, ts, key);
    case MoveCanceller(c, m) => MoveKeepsAnswers(e.cfg, e.gate, ts, c, m);
    case PropagateContext(id) =>
      forall i ensures var was, now := ContextOf(ts.reg, i), ContextOf(EndContext(ts.reg, id), i); now == was || now == was.Cancel() {
      }
  }

  lemma StopKeepsAnswers(cfg: Config, gate: Gate, ts: TaskSide)
    requires AnswersOK(gate, ts)
    ensures AnswersOK(gate.(shuttingDown := true), ApplyStop(cfg, ts))
  {
    var ts' := ApplyStop(cfg, ts);
    forall i | i in ts.threads ensures RecordOK(ts'.reg, ts.cancellers, i, ts.threads[i]) {
      assert RecordOK(ts.reg, ts.cancellers, i, ts.threads[i]);
    }
    forall i ensures var was, now := ContextOf(ts.reg, i), ContextOf(ts'.reg, i); now == was || now == was.Cancel() || now == was.Interrupt() {
    }
  }

  lemma {:induction false} RunAnswers(run: seq<State>, n: nat)
    requires IsRun(run) && n < |run|
    ensures AnswersOK(run[n].gate, run[n].tasks)
  {
    if n > 0 {
      RunAnswers(run, n - 1);
      RunRegistry(run, n - 1);
      var step := StepOf(run, n - 1);
      NextAnswers(run[n - 1], step);
    }
  }

  lemma NextAnswers(s: State, step: Step)
    requires AnswersOK(s.gate, s.tasks) && RegistryOK(s.cfg, s.gate, s.tasks) && StepEnabled(s, step)
    ensures AnswersOK(ApplyStep(s, step).gate, ApplyStep(s, step).tasks)
  {
    match step
    case Task(t) => StepKeepsAnswers(EnvOf(s), s.tasks, t);
    case ShutdownTasks =>
      if !s.gate.shuttingDown {
        StopKeepsAnswers(s.cfg, s.gate, s.tasks);
      }
    case _ =>
  }

  // ---------- which records outlive their execution ----------

  lemma SpawnedOutcome(h: History)
    requires FinalTrace(h)
    ensures ReturnedTrace(h, Spawned) <==> Outcomes(h) == {Spawned}
  {
    if ReturnedTrace(h, Spawned) {
      ReturnedCounts(h, Spawned);
    } else if InterruptedTrace(h) {
      ReturnedCounts(h.before, Errored);
    } else if h.last == ReportSent(ReportCompleted) {
      ReturnedCounts(h.before, Completed);
    } else {
      DecidedCounts(h.before, h.last == ReportSent(ReportCancelled));
    }
  }

  /** After an execution has settled, its record is there exactly if it was spawned or a
      canceller was started for it, and the backend has not accepted the cancellation. */
  lemma RecordOutlives(run: seq<State>, n: nat, i: nat)
    requires IsRun(run) && n < |run|
    requires i in run[n].tasks.threads && StageOf(run[n].tasks.threads[i].phase).Released?
    ensures var ts := run[n].tasks;
            var th, c := ts.threads[i], Ticket(i, ts.threads[i].key);
            (th.key in ts.reg.active && ts.reg.active[th.key].local && ts.reg.active[th.key].id == i) <==>
              && (Outcomes(th.trace) == {Spawned} || c in ts.cancellers)
              && (c in ts.cancellers ==> ts.cancellers[c] != Exited(true))
  {
    RunAnswers(run, n);
    RunRegistry(run, n);
    var th := run[n].tasks.threads[i];
    assert RecordOK(run[n].tasks.reg, run[n].tasks.cancellers, i, th);
    assert TraceOK(th);
    SpawnedOutcome(th.trace);
  }

  /** And its context has ended. */
  lemma SettledContextsEnd(run: seq<State>, n: nat, i: nat)
    requires IsRun(run) && n < |run|
    requires i in run[n].tasks.threads && StageOf(run[n].tasks.threads[i].phase).Released?
    ensures ContextOf(run[n].tasks.reg, i).cancelled && !ContextOf(run[n].tasks.reg, i).observation.Live?
  {
    RunAnswers(run, n);
  }

  // ---------- what starts a canceller, and when it can go on ----------

  /** A request leaves a live canceller for every record it covers, and for a completed
      execution that it names and whose cancellation was not accepted. */
  lemma RequestStartsCancellers(run: seq<State>, n: nat, request: TaskExecution, key: TaskExecution)
    requires IsRun(run) && n + 1 < |run|
    requires run[n + 1].tasks.requests == run[n].tasks.requests + [request] && Covers(request, key)
    requires
      || key in run[n].tasks.reg.active
      || (request.executionID != "" && key in run[n].tasks.reg.completed.entries && !run[n].tasks.reg.completed.entries[key])
    ensures var ts := run[n + 1].tasks;
            && key in ts.reg.active && Ticket(ts.reg.active[key].id, key) in ts.cancellers
            && !ts.cancellers[Ticket(ts.reg.active[key].id, key)].Exited?
  {
    RunRegistry(run, n);
    RunReach(run, n);
    RunAnswers(run, n);
    var s := run[n];
    var step := StepOf(run, n);
    RequestsGrow(s, step);
    assert (s.tasks.requests + [request])[|s.tasks.requests|] == request;
    StartsFor(s.cfg, s.gate, s.tasks, request, key);
  }

  lemma StartsFor(cfg: Config, gate: Gate, ts: TaskSide, request: TaskExecution, key: TaskExecution)
    requires RegistryOK(cfg, gate, ts) && AcceptedOK(ts.reg, ts.cancellers) && ExitsOK(gate, ts.reg, ts.cancellers)
    requires !gate.Closed() && Covers(request, key)
    requires key in ts.reg.active || (request.executionID != "" && key in ts.reg.completed.entries && !ts.reg.completed.entries[key])
    ensures var ts' := ApplyCancelRequest(ts, request);
            && key in ts'.reg.active && Ticket(ts'.reg.active[key].id, key) in ts'.cancellers
            && !ts'.cancellers[Ticket(ts'.reg.active[key].id, key)].Exited?
  {
    var mid := Prepared(ts.reg, request, ts.next);
    AgreePrepared(cfg, gate, ts, request);
    TargetsCover(ts.reg, request, ts.next, key);
    assert EntryOK(gate, mid, Views(ts.threads), ts.cancellers.Keys, key, mid.active[key]);
    StartedOrThere(gate, mid, ts.cancellers, Targets(ts.reg, request), key);
    assert mid.active[key].id == ts.next || (key in ts.reg.active && ts.reg.active[key] == mid.active[key]);
  }

  lemma TargetsCover(reg: Registry, request: TaskExecution, newId: nat, key: TaskExecution)
    requires Covers(request, key) && !(key in reg.active && key in reg.completed.entries && reg.completed.entries[key])
    requires key in reg.active || (request.executionID != "" && key in reg.completed.entries && !reg.completed.entries[key])
    ensures key in Prepared(reg, request, newId).active && key in Targets(reg, request)
    ensures Prepared(reg, request, newId).active[key].id == newId || (key in reg.active && reg.active[key] == Prepared(reg, request, newId).active[key])
  {
  }

  lemma StartedOrThere(gate: Gate, reg: Registry, cancellers: map<Ticket, CancelPhase>, keys: set<TaskExecution>, key: TaskExecution)
    requires key in reg.active && key in keys && !gate.Closed()
    requires reg.active[key].cancelling <==> Ticket(reg.active[key].id, key) in cancellers
    requires forall c :: c in cancellers && cancellers[c] == Exited(true) ==> !(c.key in reg.active && reg.active[c.key].id == c.id)
    requires forall c :: c in cancellers && cancellers[c] == Exited(false) ==> gate.Closed()
    ensures var reg', cancellers' := StartCancellations(reg, keys), WithStarted(reg, cancellers, keys);
            && key in reg'.active && Ticket(reg'.active[key].id, key) in cancellers'
            && !cancellers'[Ticket(reg'.active[key].id, key)].Exited?
  {
    var c := Ticket(reg.active[key].id, key);
    if !reg.active[key].cancelling {
      assert key in Cancellable(reg, keys);
      assert c in Tickets(reg, Cancellable(reg, keys));
    }
  }

  /** In a worker that is not stopping no canceller is stuck or gives up: one that waits goes
      on exactly when no execution of its key runs any more, then it calls the backend,
      tries again after a failure, and ends with an acceptance on record. */
  lemma CancellersGoOn(run: seq<State>, n: nat, c: Ticket)
    requires IsRun(run) && n < |run| && !run[n].gate.Closed() && c in run[n].tasks.cancellers
    ensures var gate, ts := run[n].gate, run[n].tasks;
            match ts.cancellers[c]
            case WaitingDone => CancelMoveEnabled(gate, ts, c, SeeDone) <==> forall i :: Executing(ts, i) ==> ts.threads[i].key != c.key
            case Looping => CancelMoveEnabled(gate, ts, c, Begin) && ApplyCancelMove(ts, c, Begin).cancelCalls == ts.cancelCalls + [c]
            case Calling => CancelMoveEnabled(gate, ts, c, Accept) && CancelMoveEnabled(gate, ts, c, Fail)
            case CallAccepted => CancelMoveEnabled(gate, ts, c, Record)
            case Retrying => CancelMoveEnabled(gate, ts, c, Retry) && ApplyCancelMove(ts, c, Retry).cancellers[c].Looping?
            case Exited(accepted) => accepted
  {
    RunAnswers(run, n);
    RunRegistry(run, n);
    if run[n].tasks.cancellers[c].WaitingDone? {
      WaitIsOver(run[n].cfg, run[n].gate, run[n].tasks, c);
    }
  }

  lemma WaitIsOver(cfg: Config, gate: Gate, ts: TaskSide, c: Ticket)
    requires RegistryOK(cfg, gate, ts) && c in ts.cancellers && ts.cancellers[c].WaitingDone?
    ensures ts.reg.doneCloses[c.id] > 0 <==> forall i :: Executing(ts, i) ==> ts.threads[i].key != c.key
  {
    var views := Views(ts.threads);
    assert CancellerOK(ts.reg, views, c, ts.cancellers[c]);
    assert EntryOK(gate, ts.reg, views, ts.cancellers.Keys, c.key, ts.reg.active[c.key]);
    if ts.reg.active[c.key].local {
      assert ThreadOK(cfg, gate, ts.reg, c.id, views[c.id]);
      assert views[c.id].stage.Holding? ==> Executing(ts, c.id) && ts.threads[c.id].key == c.key;
    }
    forall i | Executing(ts, i) && ts.threads[i].key == c.key ensures i == c.id && ts.reg.doneCloses[c.id] == 0 {
      assert ThreadOK(cfg, gate, ts.reg, i, views[i]);
    }
  }

  lemma AcceptedMove(gate: Gate, ts: TaskSide, d: Ticket, m: CancelMove, c: Ticket)
    requires d in ts.cancellers && CancelMoveEnabled(gate, ts, d, m)
    requires c in ts.cancellers && ts.cancellers[c].CallAccepted?
    ensures c in ApplyCancelMove(ts, d, m).cancellers
    ensures if d == c then m.Record? else ApplyCancelMove(ts, d, m).cancellers[c] == ts.cancellers[c]
  {
  }

  lemma OthersKeepPhase(e: Env, ts: TaskSide, step: TaskStep, c: Ticket)
    requires Enabled(e, ts, step) && c in ts.cancellers && !step.MoveCanceller?
    requires step.CancelRequest? ==> c !in StartedTickets(ts.reg, step.key, ts.next)
    ensures c in Apply(e, ts, step).cancellers && Apply(e, ts, step).cancellers[c] == ts.cancellers[c]
  {
  }

  /** Only the record step moves a canceller that got the backend's acceptance. */
  lemma AcceptedMoves(e: Env, ts: TaskSide, step: TaskStep, c: Ticket)
    requires Enabled(e, ts, step) && c in ts.cancellers && ts.cancellers[c].CallAccepted?
    requires step.CancelRequest? ==> c !in StartedTickets(ts.reg, step.key, ts.next)
    ensures var ts' := Apply(e, ts, step);
            && c in ts'.cancellers
            && (ts'.cancellers[c] == ts.cancellers[c] || (step == MoveCanceller(c, Record) && ts' == ApplyCancelMove(ts, c, Record)))
  {
    if step.MoveCanceller? {
      AcceptedMove(e.gate, ts, step.ticket, step.move, c);
    } else {
      OthersKeepPhase(e, ts, step, c);
    }
  }

  lemma RecordAccepts(reg: Registry, completions: seq<TaskExecution>, key: TaskExecution)
    requires Tracks(reg.completed, completions)
    ensures var reg' := AcceptCancellation(reg, key);
            && key !in reg'.active
            && (key.executionID != "" ==> key in reg'.completed.entries && reg'.completed.entries[key])
  {
    PutTracks(reg.completed, completions, key, true);
  }

  /** A canceller that got the backend's acceptance puts it on record, and removes the
      record of the execution. */
  lemma AcceptanceIsRecorded(run: seq<State>, n: nat, c: Ticket)
    requires IsRun(run) && n + 1 < |run| && c in run[n].tasks.cancellers && run[n].tasks.cancellers[c].CallAccepted?
    requires c in run[n + 1].tasks.cancellers && run[n + 1].tasks.cancellers[c] != run[n].tasks.cancellers[c]
    ensures run[n + 1].tasks.cancellers[c] == Exited(true) && c.key !in run[n + 1].tasks.reg.active
    ensures c.key.executionID != "" ==> Accepted(run[n + 1].tasks, c.key)
  {
    var s := run[n];
    var step := StepOf(run, n);
    TasksUnder(s, step);
    if step.Task? && step.task.CancelRequest? && c in StartedTickets(s.tasks.reg, step.task.key, s.tasks.next) {
      CancellersStartOnce(run, n, step.task.key, c);
      assert false;
    }
    if step.Task? {
      AcceptedMoves(EnvOf(s), s.tasks, step.task, c);
      RunReplay(run, n);
      RecordAccepts(s.tasks.reg, s.tasks.completions, c.key);
    }
  }

  // ---------- what shutdown leaves behind ----------

  /** A worker that does not preserve its tasks marks every record without a cancellation
      source as stopped by the shutdown; one that does leaves the sources alone. */
  lemma ShutdownMarks(run: seq<State>, m: nat, key: TaskExecution)
    requires IsRun(run) && m + 1 < |run| && !run[m].gate.shuttingDown && run[m + 1].gate.shuttingDown
    requires key in run[m].tasks.reg.active
    ensures var before, after := run[m].tasks.reg.active, run[m + 1].tasks.reg.active;
            && key in after && after[key].id == before[key].id
            && after[key].source == if before[key].source.NoSource? && !run[m].cfg.preserves then ShutdownSource else before[key].source
  {
    var step := StepOf(run, m);
    assert step.ShutdownTasks?;
  }

  /** No user's cancellation reached the execution before the worker stopped. */
  predicate Unasked(reg: Registry, th: TaskThread) {
    match StageOf(th.phase)
    case Pending => false
    case Holding => th.key in reg.active && reg.active[th.key].source.ShutdownSource? && !SeenUser(th.trace)
    case Released => !SeenUser(th.trace)
  }

  lemma OwnOpUnasked(e: Env, reg: Registry, t: nat, th: TaskThread, op: Op)
    requires OpEnabled(th.phase, op) && Unasked(reg, th)
    ensures Unasked(NextRegistry(e, reg, t, th, op), Advance(e, reg, t, th, op))
  {
    NotedStops(e, reg, t, th, op);
  }

  lemma OtherOpUnasked(e: Env, ts: TaskSide, t: nat, op: Op, i: nat)
    requires RegistryOK(e.cfg, e.gate, ts) && t in ts.threads && OpEnabled(ts.threads[t].phase, op)
    requires i in ts.threads && i != t && Unasked(ts.reg, ts.threads[i])
    ensures Unasked(NextRegistry(e, ts.reg, t, ts.threads[t], op), ts.threads[i])
  {
    if StageOf(ts.threads[i].phase).Holding? {
      if ts.threads[i].key != ts.threads[t].key {
        OpFrame(e, ts.reg, t, ts.threads[t], op, ts.threads[i].key);
      } else {
        SameKeyApart(e, ts, t, op, i);
      }
    }
  }

  lemma MoveUnasked(cfg: Config, gate: Gate, ts: TaskSide, c: Ticket, m: CancelMove, i: nat)
    requires RegistryOK(cfg, gate, ts) && c in ts.cancellers && CancelMoveEnabled(gate, ts, c, m)
    requires i in ts.threads && Unasked(ts.reg, ts.threads[i])
    ensures Unasked(ApplyCancelMove(ts, c, m).reg, ts.threads[i])
  {
    if m.Record? {
      NoHolder(cfg, gate, ts, c);
      AcceptActive(ts.reg, c.key);
    }
  }

  lemma StepUnasked(e: Env, ts: TaskSide, step: TaskStep, i: nat)
    requires RegistryOK(e.cfg, e.gate, ts) && Enabled(e, ts, step) && e.gate.shuttingDown
    requires i in ts.threads && Unasked(ts.reg, ts.threads[i])
    ensures var ts' := Apply(e, ts, step); i in ts'.threads && Unasked(ts'.reg, ts'.threads[i])
  {
    match step
    case Receive(_) => assert ts.next !in Views(ts.threads);
    case Thread(t, op) =>
      if t == i {
        OwnOpUnasked(e, ts.reg, t, ts.threads[t], op);
      } else {
        OtherOpUnasked(e, ts, t, op, i);
      }
    case MoveCanceller(c, m) => MoveUnasked(e.cfg, e.gate, ts, c, m, i);
    case _ =>
  }

  lemma {:induction false} UnaskedStays(run: seq<State>, m: nat, n: nat, i: nat)
    requires IsRun(run) && m <= n < |run| && run[m].gate.shuttingDown
    requires i in run[m].tasks.threads && Unasked(run[m].tasks.reg, run[m].tasks.threads[i])
    ensures i in run[n].tasks.threads && Unasked(run[n].tasks.reg, run[n].tasks.threads[i])
    decreases n
  {
    if m < n {
      UnaskedStays(run, m, n - 1, i);
      ShutdownGate(run, m, n - 1);
      RunRegistry(run, n - 1);
      var s := run[n - 1];
      var step := StepOf(run, n - 1);
      TasksUnder(s, step);
      if step.Task? {
        StepUnasked(EnvOf(s), s.tasks, step.task, i);
      }
    }
  }

  lemma ShutdownUnasks(run: seq<State>, m: nat, i: nat)
    requires IsRun(run) && m + 1 < |run| && !run[m].cfg.preserves
    requires !run[m].gate.shuttingDown && run[m + 1].gate.shuttingDown
    requires i in run[m].tasks.threads && Early(run[m].tasks.threads[i].phase)
    requires SourceOf(run[m].tasks.reg, run[m].tasks.threads[i].key).NoSource?
    ensures i in run[m + 1].tasks.threads && Unasked(run[m + 1].tasks.reg, run[m + 1].tasks.threads[i])
  {
    RunRegistry(run, m);
    var s := run[m];
    var step := StepOf(run, m);
    assert step.ShutdownTasks?;
    assert ThreadOK(s.cfg, s.gate, s.tasks.reg, i, Views(s.tasks.threads)[i]);
    ShutdownMarks(run, m, s.tasks.threads[i].key);
    EarlySawNothing(s.tasks.threads[i]);
  }

  lemma EarlySawNothing(th: TaskThread)
    requires Early(th.phase) && TraceOK(th)
    ensures !SeenUser(th.trace)
  {
    assert CALLED == Then(Then(Start, ClaimSent), ExecuteCalled) && !SeenUser(CALLED.before) && !SeenUser(CALLED);
  }

  /** The shutdown of a worker that does not preserve its tasks decides the report of an
      execution whose backend call has not returned, unless a cancellation came first: if it
      fails, it is reported as failed, and never as cancelled. */
  lemma ShutdownFails(run: seq<State>, m: nat, n: nat, i: nat)
    requires IsRun(run) && m < n < |run| && !run[m].cfg.preserves
    requires !run[m].gate.shuttingDown && run[m + 1].gate.shuttingDown
    requires i in run[m].tasks.threads && Early(run[m].tasks.threads[i].phase)
    requires SourceOf(run[m].tasks.reg, run[m].tasks.threads[i].key).NoSource?
    requires i in run[n].tasks.threads && StageOf(run[n].tasks.threads[i].phase).Released?
    requires Outcomes(run[n].tasks.threads[i].trace) == {Errored}
    ensures run[n].tasks.threads[i].trace.Then? && run[n].tasks.threads[i].trace.last == ReportSent(ReportFailed)
  {
    ShutdownUnasks(run, m, i);
    UnaskedStays(run, m + 1, n, i);
    OneReportPerExecution(run, n, i);
    RunOrigins(run, n);
    SameConfig(run, m, n);
    assert StopsOK(run[n].cfg, run[n].gate, run[n].tasks.requests, run[n].tasks.claims, i, run[n].tasks.threads[i]);
  }

  lemma {:induction false} SameConfig(run: seq<State>, m: nat, n: nat)
    requires IsRun(run) && m <= n < |run|
    ensures run[n].cfg == run[m].cfg
    decreases n
  {
    if m < n {
      SameConfig(run, m, n - 1);
      var step := StepOf(run, n - 1);
    }
  }

  // ---------- the end of the wait ----------

  /** The execution runs, or its done channel is closed. */
  predicate DoneOrRunning(ts: TaskSide, i: nat) {
    ts.reg.doneCloses[i] > 0 || Executing(ts, i)
  }

  /** What the wait of a shutdown was told to wait for has been there. */
  ghost predicate WaitKnows(s: State) {
    s.shutdown.Waiting? && s.cfg.preserves ==>
      && (forall i :: i in s.shutdown.taskDones ==> DoneOrRunning(s.tasks, i))
      && (forall t :: t in s.shutdown.standbyDones ==> t in s.standbys.threads)
  }

  lemma {:induction false} RunWait(run: seq<State>, n: nat)
    requires IsRun(run) && n < |run|
    ensures WaitKnows(run[n])
  {
    if n > 0 {
      RunWait(run, n - 1);
      var step := StepOf(run, n - 1);
      match step {
        case Task(t) => RunRegistry(run, n - 1); WaitUnderTask(run[n - 1], t);
        case Standby(b) => WaitUnderStandby(run[n - 1], b);
        case ShutdownTasks => RunRegistry(run, n - 1); RunStandbys(run, n - 1); WaitUnderShutdown(run[n - 1]);
        case _ =>
      }
    }
  }

  lemma WaitUnderTask(s: State, t: TaskStep)
    requires WaitKnows(s) && RegistryOK(s.cfg, s.gate, s.tasks) && StepEnabled(s, Task(t))
    ensures WaitKnows(ApplyStep(s, Task(t)))
  {
    var ts' := Apply(EnvOf(s), s.tasks, t);
    assert s.tasks.next !in Views(s.tasks.threads);
    if t.Thread? {
      WaitUnderOp(EnvOf(s), s.tasks, t.t, t.op);
    } else {
      OthersKeepDone(EnvOf(s), s.tasks, t);
    }
  }

  lemma OthersKeepDone(e: Env, ts: TaskSide, step: TaskStep)
    requires Enabled(e, ts, step) && !step.Thread? && ts.next !in ts.threads
    ensures var ts' := Apply(e, ts, step);
            forall i :: DoneOrRunning(ts, i) ==> DoneOrRunning(ts', i)
  {
  }

  lemma WaitUnderStandby(s: State, b: S.StandbyStep)
    requires WaitKnows(s) && StepEnabled(s, Standby(b))
    ensures WaitKnows(ApplyStep(s, Standby(b)))
  {
    assert forall t :: t in s.standbys.threads ==> t in ApplyStep(s, Standby(b)).standbys.threads;
  }

  lemma WaitUnderShutdown(s: State)
    requires WaitKnows(s) && RegistryOK(s.cfg, s.gate, s.tasks) && S.RunnersListed(s.standbys.sandboxes, s.standbys.threads)
    ensures WaitKnows(ApplyStep(s, ShutdownTasks))
  {
    if !s.gate.shuttingDown {
      WaitStarts(s.cfg, s.gate, s.tasks);
    }
  }

  lemma WaitUnderOp(e: Env, ts: TaskSide, t: nat, op: Op)
    requires RegistryOK(e.cfg, e.gate, ts) && t in ts.threads && OpEnabled(ts.threads[t].phase, op)
    ensures forall i :: DoneOrRunning(ts, i) ==> DoneOrRunning(ApplyOp(e, ts, t, op), i)
  {
    assert ThreadOK(e.cfg, e.gate, ts.reg, t, Views(ts.threads)[t]);
    HeldOrClosed(e, ts.reg, t, ts.threads[t], op);
    OpRegistryIds(e, ts.reg, t, ts.threads[t], op);
    forall i | DoneOrRunning(ts, i) ensures DoneOrRunning(ApplyOp(e, ts, t, op), i) {
      DoneUnderOp(e, ts, t, op, i);
    }
  }

  lemma DoneUnderOp(e: Env, ts: TaskSide, t: nat, op: Op, i: nat)
    requires t in ts.threads && OpEnabled(ts.threads[t].phase, op) && DoneOrRunning(ts, i)
    requires NextRegistry(e, ts.reg, t, ts.threads[t], op).doneCloses == (if op.Bookkeep? then ts.reg.doneCloses + multiset{t} else ts.reg.doneCloses)
    requires StageOf(ts.threads[t].phase).Holding? ==> StageOf(Advance(e, ts.reg, t, ts.threads[t], op).phase).Holding? || op.Bookkeep?
    ensures DoneOrRunning(ApplyOp(e, ts, t, op), i)
  {
  }

  lemma HeldOrClosed(e: Env, reg: Registry, t: nat, th: TaskThread, op: Op)
    requires OpEnabled(th.phase, op)
    ensures StageOf(th.phase).Holding? ==> StageOf(Advance(e, reg, t, th, op).phase).Holding? || op.Bookkeep?
    ensures op.Bookkeep? ==> StageOf(th.phase).Holding?
  {
  }

  lemma WaitStarts(cfg: Config, gate: Gate, ts: TaskSide)
    requires RegistryOK(cfg, gate, ts)
    ensures forall i :: i in Ids(ts.reg, LocalKeys(ts.reg)) ==> DoneOrRunning(ts, i)
  {
    var views := Views(ts.threads);
    forall i | i in Ids(ts.reg, LocalKeys(ts.reg)) ensures DoneOrRunning(ts, i) {
      var k :| k in LocalKeys(ts.reg) && ts.reg.active[k].id == i;
      assert EntryOK(gate, ts.reg, views, ts.cancellers.Keys, k, ts.reg.active[k]);
      assert ThreadOK(cfg, gate, ts.reg, i, views[i]);
    }
  }

  /** The wait of a shutdown can end clean as soon as nothing is left: no execution runs,
      every standby is done, and, unless the worker preserves its tasks, nothing is counted
      in the wait group any more. */
  lemma WaitCanEnd(run: seq<State>, n: nat)
    requires IsRun(run) && n < |run| && run[n].shutdown.Waiting?
    requires run[n].cfg.preserves ==> (forall i :: !Executing(run[n].tasks, i)) && (forall t :: t in run[n].standbys.threads ==> DoneClosed(run[n].standbys, t))
    requires !run[n].cfg.preserves ==> Holders(run[n].tasks.threads, Counted) == {} && Holders(run[n].standbys.threads, RunnerCounted) == {}
    ensures StepEnabled(run[n], WaitReturns(true)) && ApplyStep(run[n], WaitReturns(true)).shutdown == ShutDown(true)
  {
    RunWait(run, n);
    WaitGroupConserved(run, n);
  }
}
