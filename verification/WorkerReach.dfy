/** What requests, acceptances and shutdown reach, in every run: a cancellation or an
    interruption that reaches a running execution decides its report, an accepted
    cancellation ends all backend calls for its key, and shutdown stops everything. */
module WorkerReach {
  import opened Options
  import opened ReplayCache
  import opened WorkerState
  import opened WorkerProtocol
  import opened WorkerInvariant
  import opened WorkerSteps
  import opened WorkerReplay
  import opened WorkerOrigins
  import opened WorkerMachine
  import opened WorkerTheorems

  // ---------- invariants over runs ----------

  /** The execution has not ended its own context yet. */
  predicate ContextOpen(p: Phase) {
    StageOf(p).Holding? && !p.ContextEnded?
  }

  /** In a worker that preserves its tasks and is not shutting down, only a user's
      cancellation ends the observation of an execution. */
  ghost predicate LiveOK(cfg: Config, gate: Gate, reg: Registry, threads: map<nat, TaskThread>) {
    cfg.preserves && !gate.shuttingDown ==>
      forall i :: i in threads && ContextOpen(threads[i].phase) && SourceOf(reg, threads[i].key).NoSource? ==>
        ContextOf(reg, i).observation.Live?
  }

  /** A key whose cancellation the backend accepted has no record, and the canceller that
      got the acceptance. */
  ghost predicate AcceptedOK(reg: Registry, cancellers: map<Ticket, CancelPhase>) {
    forall k :: k in reg.completed.entries && reg.completed.entries[k] ==> k !in reg.active && AcceptedBy(cancellers, k)
  }

  ghost predicate AcceptedBy(cancellers: map<Ticket, CancelPhase>, k: TaskExecution) {
    exists c :: c in cancellers && c.key == k && cancellers[c] == Exited(true)
  }

  predicate HasEnded(cfg: Config, ctx: TaskContext) {
    !ctx.observation.Live? && (cfg.preserves || ctx.cancelled)
  }

  /** Once shutdown began, the context of every execution has ended and every canceller
      that is left is told to stop. */
  ghost predicate StoppedOK(cfg: Config, gate: Gate, reg: Registry, threads: map<nat, TaskThread>, cancellers: map<Ticket, CancelPhase>) {
    gate.shuttingDown ==>
      && (forall i :: i in threads && StageOf(threads[i].phase).Holding? ==> HasEnded(cfg, ContextOf(reg, i)))
      && (forall c :: c in cancellers && !cancellers[c].Exited? ==> c in reg.stopped)
  }

  ghost predicate ReachOK(cfg: Config, gate: Gate, ts: TaskSide) {
    && LiveOK(cfg, gate, ts.reg, ts.threads)
    && AcceptedOK(ts.reg, ts.cancellers)
    && StoppedOK(cfg, gate, ts.reg, ts.threads, ts.cancellers)
  }

  // ---------- one operation of a thread ----------

  /** What an operation does to contexts and records, apart from settling. */
  lemma OpReaches(e: Env, reg: Registry, t: nat, th: TaskThread, op: Op)
    requires OpEnabled(th.phase, op)
    ensures var th', reg' := Advance(e, reg, t, th, op), NextRegistry(e, reg, t, th, op);
            && reg'.stopped == reg.stopped && th'.key == th.key
            && (forall i :: i != t ==> ContextOf(reg', i) == ContextOf(reg, i))
            && (Inserts(e, reg, th, op) ==> ContextOf(reg', t).observation.Live?)
            && (op.EndOwnContext? ==> th'.phase.ContextEnded? && (ContextOf(reg', t) == ContextOf(reg, t) || ContextOf(reg', t) == ContextOf(reg, t).Cancel()))
            && (!Inserts(e, reg, th, op) && !op.EndOwnContext? ==> ContextOf(reg', t) == ContextOf(reg, t))
            && (ContextOpen(th'.phase) && !Inserts(e, reg, th, op) ==> ContextOpen(th.phase))
  {
  }

  lemma OpSources(e: Env, reg: Registry, t: nat, th: TaskThread, op: Op, key: TaskExecution)
    requires OpEnabled(th.phase, op) && key != th.key
    ensures SourceOf(NextRegistry(e, reg, t, th, op), key) == SourceOf(reg, key)
  {
    if op.Bookkeep? {
      SettleActive(reg, th.key, th.phase.interrupted);
    }
  }

  lemma OwnSource(e: Env, reg: Registry, t: nat, th: TaskThread, op: Op)
    requires OpEnabled(th.phase, op) && !op.Bookkeep? && !Inserts(e, reg, th, op)
    ensures SourceOf(NextRegistry(e, reg, t, th, op), th.key) == SourceOf(reg, th.key)
  {
  }

  lemma OpKeepsLive(e: Env, ts: TaskSide, t: nat, op: Op)
    requires LiveOK(e.cfg, e.gate, ts.reg, ts.threads) && ThreadsOK(e.cfg, e.gate, ts.reg, Views(ts.threads))
    requires t in ts.threads && OpEnabled(ts.threads[t].phase, op)
    ensures var ts' := ApplyOp(e, ts, t, op); LiveOK(e.cfg, e.gate, ts'.reg, ts'.threads)
  {
    var th := ts.threads[t];
    var ts' := ApplyOp(e, ts, t, op);
    OpReaches(e, ts.reg, t, th, op);
    if e.cfg.preserves && !e.gate.shuttingDown {
      forall i | i in ts'.threads && ContextOpen(ts'.threads[i].phase) && SourceOf(ts'.reg, ts'.threads[i].key).NoSource?
        ensures ContextOf(ts'.reg, i).observation.Live?
      {
        if i != t {
          if ts.threads[i].key != th.key {
            OpSources(e, ts.reg, t, th, op, ts.threads[i].key);
          } else {
            SameKeyApart(e, ts, t, op, i);
          }
        } else if !Inserts(e, ts.reg, th, op) {
          OwnSource(e, ts.reg, t, th, op);
        }
      }
    }
  }

  /** A thread with the key of another that holds its record does not touch that record. */
  lemma SameKeyApart(e: Env, ts: TaskSide, t: nat, op: Op, i: nat)
    requires ThreadsOK(e.cfg, e.gate, ts.reg, Views(ts.threads))
    requires t in ts.threads && OpEnabled(ts.threads[t].phase, op)
    requires i in ts.threads && i != t && ts.threads[i].key == ts.threads[t].key && StageOf(ts.threads[i].phase).Holding?
    ensures NextRegistry(e, ts.reg, t, ts.threads[t], op).active == ts.reg.active
  {
    var views := Views(ts.threads);
    assert ThreadOK(e.cfg, e.gate, ts.reg, i, views[i]);
    assert ThreadOK(e.cfg, e.gate, ts.reg, t, views[t]);
  }

  lemma OpKeepsAccepted(e: Env, ts: TaskSide, t: nat, op: Op)
    requires AcceptedOK(ts.reg, ts.cancellers)
    requires t in ts.threads && OpEnabled(ts.threads[t].phase, op)
    ensures AcceptedOK(ApplyOp(e, ts, t, op).reg, ts.cancellers)
  {
    var th := ts.threads[t];
    if op.Bookkeep? {
      SettleActive(ts.reg, th.key, th.phase.interrupted);
      SettleEntries(ts.reg, th.key, th.phase.interrupted);
    } else {
      OpStage(e, ts.reg, t, th, op);
    }
  }

  /** Settling never records an acceptance. */
  lemma SettleEntries(r: Registry, key: TaskExecution, interrupted: bool)
    ensures var entries := Settle(r, key, interrupted).completed.entries;
            forall k :: k in entries && entries[k] ==> k in r.completed.entries && r.completed.entries[k]
  {
  }

  lemma OpKeepsStopped(e: Env, ts: TaskSide, t: nat, op: Op)
    requires StoppedOK(e.cfg, e.gate, ts.reg, ts.threads, ts.cancellers)
    requires t in ts.threads && OpEnabled(ts.threads[t].phase, op)
    ensures var ts' := ApplyOp(e, ts, t, op); StoppedOK(e.cfg, e.gate, ts'.reg, ts'.threads, ts'.cancellers)
  {
    OpReaches(e, ts.reg, t, ts.threads[t], op);
    if e.gate.shuttingDown {
      NoInsert(e, ts.reg, t, ts.threads[t], op);
    }
  }

  // ---------- the other steps ----------

  lemma RequestKeepsLive(cfg: Config, gate: Gate, ts: TaskSide, key: TaskExecution)
    requires LiveOK(cfg, gate, ts.reg, ts.threads) && RegistryOK(cfg, gate, ts)
    ensures var ts' := ApplyCancelRequest(ts, key); LiveOK(cfg, gate, ts'.reg, ts'.threads)
  {
    var views, mid, keys := Views(ts.threads), Prepared(ts.reg, key, ts.next), Targets(ts.reg, key);
    AgreePrepared(cfg, gate, ts, key);
    if cfg.preserves && !gate.shuttingDown {
      forall i | i in ts.threads && ContextOpen(ts.threads[i].phase) && SourceOf(RequestCancellation(ts.reg, key, ts.next), ts.threads[i].key).NoSource?
        ensures ContextOf(RequestCancellation(ts.reg, key, ts.next), i).observation.Live?
      {
        assert Stands(views, i, Holding) && ThreadOK(cfg, gate, ts.reg, i, views[i]);
        StartContexts(cfg, gate, mid, views, ts.cancellers, keys, i);
      }
    }
  }

  lemma AgreePrepared(cfg: Config, gate: Gate, ts: TaskSide, key: TaskExecution)
    requires RegistryOK(cfg, gate, ts)
    ensures Agree(cfg, gate, Prepared(ts.reg, key, ts.next), Views(ts.threads), ts.cancellers)
    ensures Prepared(ts.reg, key, ts.next).contexts == ts.reg.contexts
  {
    if key.executionID != "" {
      AgreePlaceholder(cfg, gate, ts.reg, Views(ts.threads), ts.cancellers, key, ts.next);
    }
  }

  lemma RequestKeepsAccepted(cfg: Config, gate: Gate, ts: TaskSide, key: TaskExecution)
    requires AcceptedOK(ts.reg, ts.cancellers) && RegistryOK(cfg, gate, ts)
    ensures var ts' := ApplyCancelRequest(ts, key); AcceptedOK(ts'.reg, ts'.cancellers)
  {
    var ts' := ApplyCancelRequest(ts, key);
    var mid := Prepared(ts.reg, key, ts.next);
    AgreePrepared(cfg, gate, ts, key);
    forall k | AcceptedBy(ts.cancellers, k) ensures AcceptedBy(ts'.cancellers, k) {
      var c :| c in ts.cancellers && c.key == k && ts.cancellers[c] == Exited(true);
      if c in StartedTickets(ts.reg, key, ts.next) {
        StartsAreNew(cfg, gate, mid, Views(ts.threads), ts.cancellers, Targets(ts.reg, key), c);
        assert false;
      }
      assert ts'.cancellers[c] == Exited(true);
    }
    assert ts'.reg.completed == ts.reg.completed && ts'.reg.active.Keys == mid.active.Keys;
  }

  /** No execution of a canceller's key still runs once the canceller is past its wait. */
  lemma NoHolder(cfg: Config, gate: Gate, ts: TaskSide, c: Ticket)
    requires RegistryOK(cfg, gate, ts)
    requires c in ts.cancellers && !ts.cancellers[c].WaitingDone? && !ts.cancellers[c].Exited?
    ensures forall i :: i in ts.threads && StageOf(ts.threads[i].phase).Holding? ==> ts.threads[i].key != c.key
  {
    var views := Views(ts.threads);
    assert CancellerOK(ts.reg, views, c, ts.cancellers[c]);
    forall i | i in ts.threads && StageOf(ts.threads[i].phase).Holding? ensures ts.threads[i].key != c.key {
      assert ThreadOK(cfg, gate, ts.reg, i, views[i]);
    }
  }

  lemma RecordKeepsLive(cfg: Config, gate: Gate, ts: TaskSide, c: Ticket)
    requires LiveOK(cfg, gate, ts.reg, ts.threads)
    requires forall i :: i in ts.threads && StageOf(ts.threads[i].phase).Holding? ==> ts.threads[i].key != c.key
    ensures LiveOK(cfg, gate, AcceptCancellation(ts.reg, c.key), ts.threads)
  {
    var reg' := AcceptCancellation(ts.reg, c.key);
    assert reg'.active == ts.reg.active - {c.key} && reg'.contexts == ts.reg.contexts;
  }

  lemma MoveKeepsAccepted(gate: Gate, ts: TaskSide, c: Ticket, m: CancelMove)
    requires AcceptedOK(ts.reg, ts.cancellers) && c in ts.cancellers && CancelMoveEnabled(gate, ts, c, m)
    ensures var ts' := ApplyCancelMove(ts, c, m); AcceptedOK(ts'.reg, ts'.cancellers)
  {
    var ts' := ApplyCancelMove(ts, c, m);
    forall k | AcceptedBy(ts.cancellers, k) ensures AcceptedBy(ts'.cancellers, k) {
      var d :| d in ts.cancellers && d.key == k && ts.cancellers[d] == Exited(true);
      assert d in ts'.cancellers && ts'.cancellers[d] == Exited(true);
    }
    if m.Record? {
      assert ts'.cancellers[c] == Exited(true);
    }
  }

  lemma MoveKeepsStopped(cfg: Config, gate: Gate, ts: TaskSide, c: Ticket, m: CancelMove)
    requires StoppedOK(cfg, gate, ts.reg, ts.threads, ts.cancellers)
    requires c in ts.cancellers && CancelMoveEnabled(gate, ts, c, m)
    ensures var ts' := ApplyCancelMove(ts, c, m); StoppedOK(cfg, gate, ts'.reg, ts'.threads, ts'.cancellers)
  {
  }

  lemma StepKeepsReach(e: Env, ts: TaskSide, step: TaskStep)
    requires ReachOK(e.cfg, e.gate, ts) && RegistryOK(e.cfg, e.gate, ts) && Enabled(e, ts, step)
    ensures ReachOK(e.cfg, e.gate, Apply(e, ts, step))
  {
    match step
    case Receive(key) =>
    case Thread(t, op) =>
      OpKeepsLive(e, ts, t, op);
      OpKeepsAccepted(e, ts, t, op);
      OpKeepsStopped(e, ts, t, op);
    case CancelRequest(key) =>
      RequestKeepsLive(e.cfg, e.gate, ts, key);
      RequestKeepsAccepted(e.cfg, e.gate, ts, key);
    case MoveCanceller(c, m) =>
      MoveKeepsAccepted(e.gate, ts, c, m);
      MoveKeepsStopped(e.cfg, e.gate, ts, c, m);
      if m.Record? {
        NoHolder(e.cfg, e.gate, ts, c);
        RecordKeepsLive(e.cfg, e.gate, ts, c);
      }
    case PropagateContext(id) =>
  }

  /** The shutdown region reaches every execution and every canceller. */
  lemma StopReaches(cfg: Config, gate: Gate, ts: TaskSide)
    requires ReachOK(cfg, gate, ts) && RegistryOK(cfg, gate, ts)
    ensures ReachOK(cfg, gate.(shuttingDown := true), ApplyStop(cfg, ts))
  {
    var views, reg, reg' := Views(ts.threads), ts.reg, StopAll(ts.reg, cfg.preserves);
    forall i | i in ts.threads && StageOf(ts.threads[i].phase).Holding? ensures HasEnded(cfg, ContextOf(reg', i)) {
      assert ThreadOK(cfg, gate, reg, i, views[i]);
      assert ts.threads[i].key in LocalKeys(reg);
      assert i in Ids(reg, LocalKeys(reg));
    }
    forall c | c in ts.cancellers && !ts.cancellers[c].Exited? ensures c in reg'.stopped {
      assert CancellerOK(reg, views, c, ts.cancellers[c]);
      assert EntryOK(gate, reg, views, ts.cancellers.Keys, c.key, reg.active[c.key]);
      assert c.key in CancellingKeys(reg);
    }
    assert reg'.active.Keys == reg.active.Keys && reg'.completed == reg.completed;
  }

  lemma {:induction false} RunReach(run: seq<State>, n: nat)
    requires IsRun(run) && n < |run|
    ensures ReachOK(run[n].cfg, run[n].gate, run[n].tasks)
  {
    if n > 0 {
      RunReach(run, n - 1);
      RunRegistry(run, n - 1);
      var step := StepOf(run, n - 1);
      NextReach(run[n - 1], step);
    }
  }

  lemma NextReach(s: State, step: Step)
    requires ReachOK(s.cfg, s.gate, s.tasks) && RegistryOK(s.cfg, s.gate, s.tasks) && StepEnabled(s, step)
    ensures var s' := ApplyStep(s, step); ReachOK(s'.cfg, s'.gate, s'.tasks)
  {
    match step
    case Task(t) => StepKeepsReach(EnvOf(s), s.tasks, t);
    case ShutdownTasks =>
      if !s.gate.shuttingDown {
        StopReaches(s.cfg, s.gate, s.tasks);
      }
    case _ =>
  }

  // ---------- what a request or an interruption decides ----------

  /** The backend has not returned yet. */
  predicate Early(p: Phase) {
    p.Inserted? || p.Claimed? || p.Running?
  }

  /** A user's cancellation has reached this execution in time. */
  predicate UserMarked(reg: Registry, th: TaskThread) {
    match StageOf(th.phase)
    case Pending => false
    case Holding => SourceOf(reg, th.key).UserSource? && (Early(th.phase) || SeenUser(th.trace))
    case Released => SeenUser(th.trace)
  }

  /** An interruption has. */
  predicate InterruptionMarked(ctx: TaskContext, th: TaskThread) {
    match StageOf(th.phase)
    case Pending => false
    case Holding => ctx.observation.InterruptCause? && (Early(th.phase) || SeenInterruption(th.trace))
    case Released => SeenInterruption(th.trace)
  }

  predicate UserReached(ts: TaskSide, i: nat) {
    i in ts.threads && UserMarked(ts.reg, ts.threads[i])
  }

  predicate InterruptionReached(ts: TaskSide, i: nat) {
    i in ts.threads && InterruptionMarked(ContextOf(ts.reg, i), ts.threads[i])
  }

  /** What reached an execution in time is noted when its backend call returns. */
  lemma OpNotes(e: Env, reg: Registry, t: nat, th: TaskThread, op: Op)
    requires OpEnabled(th.phase, op) && ThreadOK(e.cfg, e.gate, reg, t, ViewOf(th)) && StageOf(th.phase).Holding?
    ensures var th' := Advance(e, reg, t, th, op);
            && !StageOf(th'.phase).Pending?
            && (SeenUser(th.trace) ==> SeenUser(th'.trace)) && (SeenInterruption(th.trace) ==> SeenInterruption(th'.trace))
            && (Early(th.phase) && SourceOf(reg, th.key).UserSource? ==> Early(th'.phase) || SeenUser(th'.trace))
            && (Early(th.phase) && ContextOf(reg, t).observation.InterruptCause? ==> Early(th'.phase) || SeenInterruption(th'.trace))
            && (StageOf(th'.phase).Released? ==> !Early(th.phase))
  {
  }

  lemma OpKeepsReached(e: Env, ts: TaskSide, t: nat, op: Op, i: nat)
    requires RegistryOK(e.cfg, e.gate, ts)
    requires t in ts.threads && OpEnabled(ts.threads[t].phase, op)
    ensures UserReached(ts, i) ==> UserReached(ApplyOp(e, ts, t, op), i)
    ensures InterruptionReached(ts, i) ==> InterruptionReached(ApplyOp(e, ts, t, op), i)
  {
    if i in ts.threads && !StageOf(ts.threads[i].phase).Pending? {
      var th := ts.threads[t];
      OpReaches(e, ts.reg, t, th, op);
      if i == t {
        assert ThreadOK(e.cfg, e.gate, ts.reg, t, Views(ts.threads)[t]);
        OwnOpKeepsMarks(e, ts.reg, t, th, op);
      } else if StageOf(ts.threads[i].phase).Holding? {
        if ts.threads[i].key != th.key {
          OpSources(e, ts.reg, t, th, op, ts.threads[i].key);
        } else {
          SameKeyApart(e, ts, t, op, i);
        }
      }
    }
  }

  lemma OwnOpKeepsMarks(e: Env, reg: Registry, t: nat, th: TaskThread, op: Op)
    requires OpEnabled(th.phase, op) && ThreadOK(e.cfg, e.gate, reg, t, ViewOf(th)) && !StageOf(th.phase).Pending?
    ensures var th', reg' := Advance(e, reg, t, th, op), NextRegistry(e, reg, t, th, op);
            && (UserMarked(reg, th) ==> UserMarked(reg', th'))
            && (InterruptionMarked(ContextOf(reg, t), th) ==> InterruptionMarked(ContextOf(reg', t), th'))
  {
    OpReaches(e, reg, t, th, op);
    if StageOf(th.phase).Holding? {
      OpNotes(e, reg, t, th, op);
      if !op.Bookkeep? {
        OwnSource(e, reg, t, th, op);
      }
    } else {
      ReleasedStays(e, reg, t, th, op);
    }
  }

  lemma ReleasedStays(e: Env, reg: Registry, t: nat, th: TaskThread, op: Op)
    requires OpEnabled(th.phase, op) && StageOf(th.phase).Released?
    ensures var th' := Advance(e, reg, t, th, op); StageOf(th'.phase).Released? && th'.trace == th.trace
  {
  }

  lemma RequestKeepsReached(cfg: Config, gate: Gate, ts: TaskSide, key: TaskExecution, i: nat)
    requires RegistryOK(cfg, gate, ts)
    ensures UserReached(ts, i) ==> UserReached(ApplyCancelRequest(ts, key), i)
    ensures InterruptionReached(ts, i) ==> InterruptionReached(ApplyCancelRequest(ts, key), i)
  {
    var views, mid, keys := Views(ts.threads), Prepared(ts.reg, key, ts.next), Targets(ts.reg, key);
    if i in ts.threads && StageOf(ts.threads[i].phase).Holding? {
      AgreePrepared(cfg, gate, ts, key);
      assert Stands(views, i, Holding) && ThreadOK(cfg, gate, ts.reg, i, views[i]);
      StartContexts(cfg, gate, mid, views, ts.cancellers, keys, i);
    }
  }

  lemma StepKeepsReached(e: Env, ts: TaskSide, step: TaskStep, i: nat)
    requires RegistryOK(e.cfg, e.gate, ts) && Enabled(e, ts, step)
    ensures UserReached(ts, i) ==> UserReached(Apply(e, ts, step), i)
    ensures InterruptionReached(ts, i) ==> InterruptionReached(Apply(e, ts, step), i)
  {
    match step
    case Receive(key) => assert ts.next !in Views(ts.threads);
    case Thread(t, op) => OpKeepsReached(e, ts, t, op, i);
    case CancelRequest(key) => RequestKeepsReached(e.cfg, e.gate, ts, key, i);
    case MoveCanceller(c, m) => MoveKeepsReached(e.cfg, e.gate, ts, c, m, i);
    case PropagateContext(id) =>
  }

  lemma MoveKeepsReached(cfg: Config, gate: Gate, ts: TaskSide, c: Ticket, m: CancelMove, i: nat)
    requires RegistryOK(cfg, gate, ts) && c in ts.cancellers && CancelMoveEnabled(gate, ts, c, m)
    ensures UserReached(ts, i) ==> UserReached(ApplyCancelMove(ts, c, m), i)
    ensures InterruptionReached(ts, i) ==> InterruptionReached(ApplyCancelMove(ts, c, m), i)
  {
    if m.Record? {
      NoHolder(cfg, gate, ts, c);
    }
  }

  lemma StopKeepsReached(cfg: Config, ts: TaskSide, i: nat)
    ensures UserReached(ts, i) ==> UserReached(ApplyStop(cfg, ts), i)
    ensures InterruptionReached(ts, i) ==> InterruptionReached(ApplyStop(cfg, ts), i)
  {
  }

  lemma {:induction false} ReachedStays(run: seq<State>, m: nat, n: nat, i: nat)
    requires IsRun(run) && m <= n < |run|
    ensures UserReached(run[m].tasks, i) ==> UserReached(run[n].tasks, i)
    ensures InterruptionReached(run[m].tasks, i) ==> InterruptionReached(run[n].tasks, i)
    decreases n
  {
    if m < n {
      ReachedStays(run, m, n - 1, i);
      NextReached(run, n - 1, i);
    }
  }

  lemma NextReached(run: seq<State>, n: nat, i: nat)
    requires IsRun(run) && n + 1 < |run|
    ensures UserReached(run[n].tasks, i) ==> UserReached(run[n + 1].tasks, i)
    ensures InterruptionReached(run[n].tasks, i) ==> InterruptionReached(run[n + 1].tasks, i)
  {
    RunRegistry(run, n);
    var s := run[n];
    var step := StepOf(run, n);
    TasksUnder(s, step);
    if step.Task? {
      StepKeepsReached(EnvOf(s), s.tasks, step.task, i);
    } else {
      StopKeepsReached(s.cfg, s.tasks, i);
    }
  }

  /** A request marks every record that it covers and that is not recorded as completed. */
  lemma RequestMarks(reg: Registry, key: TaskExecution, newId: nat, k: TaskExecution)
    requires Covers(key, k) && k in reg.active && k !in reg.completed.entries
    requires reg.active[k].source.UserSource? <==> reg.active[k].cancelling
    ensures SourceOf(RequestCancellation(reg, key, newId), k).UserSource?
  {
    assert k in Targets(reg, key) && Prepared(reg, key, newId).active[k] == reg.active[k];
  }

  lemma RequestReaches(cfg: Config, gate: Gate, ts: TaskSide, key: TaskExecution, i: nat)
    requires RegistryOK(cfg, gate, ts)
    requires i in ts.threads && Early(ts.threads[i].phase) && Covers(key, ts.threads[i].key)
    ensures UserReached(ApplyCancelRequest(ts, key), i)
  {
    var k := ts.threads[i].key;
    var views := Views(ts.threads);
    assert ThreadOK(cfg, gate, ts.reg, i, views[i]);
    assert EntryOK(gate, ts.reg, views, ts.cancellers.Keys, k, ts.reg.active[k]);
    RequestMarks(ts.reg, key, ts.next, k);
  }

  /** A cancellation request that covers an execution whose backend call has not returned
      decides its report: if it fails, it is reported as cancelled. */
  lemma RequestDecides(run: seq<State>, m: nat, n: nat, i: nat, request: TaskExecution)
    requires IsRun(run) && m < n < |run|
    requires i in run[m].tasks.threads && Early(run[m].tasks.threads[i].phase)
    requires run[m + 1].tasks.requests == run[m].tasks.requests + [request]
    requires Covers(request, run[m].tasks.threads[i].key)
    requires i in run[n].tasks.threads && StageOf(run[n].tasks.threads[i].phase).Released?
    requires Outcomes(run[n].tasks.threads[i].trace) == {Errored}
    ensures run[n].tasks.threads[i].trace.Then? && run[n].tasks.threads[i].trace.last == ReportSent(ReportCancelled)
  {
    RequestStep(run, m, i, request);
    ReachedStays(run, m + 1, n, i);
    OneReportPerExecution(run, n, i);
  }

  lemma RequestStep(run: seq<State>, m: nat, i: nat, request: TaskExecution)
    requires IsRun(run) && m + 1 < |run|
    requires i in run[m].tasks.threads && Early(run[m].tasks.threads[i].phase)
    requires run[m + 1].tasks.requests == run[m].tasks.requests + [request]
    requires Covers(request, run[m].tasks.threads[i].key)
    ensures UserReached(run[m + 1].tasks, i)
  {
    RunRegistry(run, m);
    var s := run[m];
    var step := StepOf(run, m);
    TasksUnder(s, step);
    RequestsGrow(s, step);
    assert (s.tasks.requests + [request])[|s.tasks.requests|] == request;
    RequestReaches(s.cfg, s.gate, s.tasks, request, i);
  }

  /** Only a request step adds to the requests. */
  lemma RequestsGrow(s: State, step: Step)
    requires StepEnabled(s, step)
    ensures var requests := ApplyStep(s, step).tasks.requests;
            if step.Task? && step.task.CancelRequest? then requests == s.tasks.requests + [step.task.key]
            else requests == s.tasks.requests
  {
  }

  /** The shutdown of a preserving worker decides the report of an execution whose backend
      call has not returned, unless a cancellation came first: if it fails, nothing is
      reported. */
  lemma ShutdownDecides(run: seq<State>, m: nat, n: nat, i: nat)
    requires IsRun(run) && m < n < |run| && run[m].cfg.preserves
    requires !run[m].gate.shuttingDown && run[m + 1].gate.shuttingDown
    requires i in run[m].tasks.threads && Early(run[m].tasks.threads[i].phase)
    requires SourceOf(run[m].tasks.reg, run[m].tasks.threads[i].key).NoSource?
    requires i in run[n].tasks.threads && StageOf(run[n].tasks.threads[i].phase).Released?
    requires Outcomes(run[n].tasks.threads[i].trace) == {Errored}
    ensures run[n].tasks.threads[i].trace.Then? && run[n].tasks.threads[i].trace.last.Interrupted?
  {
    ShutdownStep(run, m, i);
    ReachedStays(run, m + 1, n, i);
    OneReportPerExecution(run, n, i);
  }

  lemma ShutdownStep(run: seq<State>, m: nat, i: nat)
    requires IsRun(run) && m + 1 < |run| && run[m].cfg.preserves
    requires !run[m].gate.shuttingDown && run[m + 1].gate.shuttingDown
    requires i in run[m].tasks.threads && Early(run[m].tasks.threads[i].phase)
    requires SourceOf(run[m].tasks.reg, run[m].tasks.threads[i].key).NoSource?
    ensures InterruptionReached(run[m + 1].tasks, i)
  {
    RunRegistry(run, m);
    RunReach(run, m);
    var s := run[m];
    var step := StepOf(run, m);
    assert step.ShutdownTasks?;
    InterruptReaches(s.cfg, s.gate, s.tasks, i);
  }

  lemma InterruptReaches(cfg: Config, gate: Gate, ts: TaskSide, i: nat)
    requires RegistryOK(cfg, gate, ts) && LiveOK(cfg, gate, ts.reg, ts.threads) && cfg.preserves && !gate.shuttingDown
    requires i in ts.threads && Early(ts.threads[i].phase) && SourceOf(ts.reg, ts.threads[i].key).NoSource?
    ensures InterruptionReached(ApplyStop(cfg, ts), i)
  {
    assert ThreadOK(cfg, gate, ts.reg, i, Views(ts.threads)[i]);
    assert ts.threads[i].key in LocalKeys(ts.reg);
    assert i in Ids(ts.reg, LocalKeys(ts.reg));
  }

  // ---------- after an acceptance ----------

  /** The backend's acceptance of a cancellation of this key is on record. */
  predicate Accepted(ts: TaskSide, key: TaskExecution) {
    key in ts.reg.completed.entries && ts.reg.completed.entries[key]
  }

  /** A key is recorded as accepted only after a canceller of it got the backend's
      acceptance. */
  lemma AcceptedMeansAccepted(run: seq<State>, n: nat, key: TaskExecution)
    requires IsRun(run) && n < |run| && Accepted(run[n].tasks, key)
    ensures AcceptedBy(run[n].tasks.cancellers, key)
  {
    RunReach(run, n);
  }

  /** While an acceptance is on record every canceller of its key has exited. */
  lemma AcceptedEndsCancellers(run: seq<State>, n: nat, key: TaskExecution, c: Ticket)
    requires IsRun(run) && n < |run| && Accepted(run[n].tasks, key)
    requires c in run[n].tasks.cancellers && c.key == key
    ensures run[n].tasks.cancellers[c].Exited?
  {
    RunReach(run, n);
    RunRegistry(run, n);
    assert CancellerOK(run[n].tasks.reg, Views(run[n].tasks.threads), c, run[n].tasks.cancellers[c]);
  }

  /** From an acceptance on, as long as it stays on record, the backend is never asked to
      cancel that execution again, whatever requests are replayed. */
  lemma {:induction false} NoCallsAfterAcceptance(run: seq<State>, n: nat, m: nat, key: TaskExecution)
    requires IsRun(run) && n <= m < |run|
    requires forall k :: n <= k < m ==> Accepted(run[k].tasks, key)
    ensures run[n].tasks.cancelCalls <= run[m].tasks.cancelCalls
    ensures forall j :: |run[n].tasks.cancelCalls| <= j < |run[m].tasks.cancelCalls| ==> run[m].tasks.cancelCalls[j].key != key
    decreases m
  {
    if n < m {
      NoCallsAfterAcceptance(run, n, m - 1, key);
      CallsGrow(run, m - 1);
      var calls, calls' := run[m - 1].tasks.cancelCalls, run[m].tasks.cancelCalls;
      if calls' != calls {
        var c := calls'[|calls|];
        if c.key == key {
          AcceptedEndsCancellers(run, m - 1, key, c);
          assert false;
        }
      }
    }
  }

  lemma CallsGrow(run: seq<State>, n: nat)
    requires IsRun(run) && n + 1 < |run|
    ensures var calls, calls' := run[n].tasks.cancelCalls, run[n + 1].tasks.cancelCalls;
            || calls' == calls
            || (|calls'| == |calls| + 1 && calls <= calls' && calls'[|calls|] in run[n].tasks.cancellers
                && run[n].tasks.cancellers[calls'[|calls|]].Looping? && calls'[|calls|] !in run[n].tasks.reg.stopped)
  {
    var s := run[n];
    var step := StepOf(run, n);
    TasksUnder(s, step);
  }

  // ---------- after shutdown ----------

  /** Once shutdown began, every running execution's context has ended. */
  lemma ShutdownEndsContexts(run: seq<State>, n: nat, i: nat)
    requires IsRun(run) && n < |run| && run[n].gate.shuttingDown && Executing(run[n].tasks, i)
    ensures HasEnded(run[n].cfg, ContextOf(run[n].tasks.reg, i))
  {
    RunReach(run, n);
  }

  /** And the backend is not asked to cancel anything any more. */
  lemma {:induction false} ShutdownEndsCalls(run: seq<State>, n: nat, m: nat)
    requires IsRun(run) && n <= m < |run| && run[n].gate.shuttingDown
    ensures run[m].tasks.cancelCalls == run[n].tasks.cancelCalls
    decreases m
  {
    if n < m {
      ShutdownEndsCalls(run, n, m - 1);
      ShutdownGate(run, n, m - 1);
      RunReach(run, m - 1);
      CallsGrow(run, m - 1);
    }
  }

  /** How many moves a stopped canceller can still make. */
  function MovesLeft(p: CancelPhase): nat {
    match p
    case Calling => 3
    case WaitingDone => 2
    case Retrying => 2
    case Looping => 1
    case CallAccepted => 1
    case Exited(_) => 0
  }

  /** So the wait for the cancellers can end: after shutdown each of them that has not
      exited can move, and every move brings it closer to its exit. */
  lemma CancellersWindDown(run: seq<State>, n: nat, c: Ticket)
    requires IsRun(run) && n < |run| && run[n].gate.shuttingDown && c in run[n].tasks.cancellers
    ensures run[n].tasks.cancellers[c].Exited? || exists m :: CancelMoveEnabled(run[n].gate, run[n].tasks, c, m)
    ensures forall m :: CancelMoveEnabled(run[n].gate, run[n].tasks, c, m) ==>
              MovesLeft(ApplyCancelMove(run[n].tasks, c, m).cancellers[c]) < MovesLeft(run[n].tasks.cancellers[c])
  {
    RunReach(run, n);
    var gate, ts := run[n].gate, run[n].tasks;
    WindDown(gate, ts, c);
  }

  lemma WindDown(gate: Gate, ts: TaskSide, c: Ticket)
    requires c in ts.cancellers && (ts.cancellers[c].Exited? || c in ts.reg.stopped)
    ensures ts.cancellers[c].Exited? || exists m :: CancelMoveEnabled(gate, ts, c, m)
    ensures forall m :: CancelMoveEnabled(gate, ts, c, m) ==>
              MovesLeft(ApplyCancelMove(ts, c, m).cancellers[c]) < MovesLeft(ts.cancellers[c])
  {
    match ts.cancellers[c]
    case Calling => assert CancelMoveEnabled(gate, ts, c, Accept);
    case CallAccepted => assert CancelMoveEnabled(gate, ts, c, Record);
    case Exited(_) =>
    case _ => assert CancelMoveEnabled(gate, ts, c, SeeStop);
  }

  // ---------- the first cause wins ----------

  lemma OpKeepsCause(e: Env, reg: Registry, t: nat, th: TaskThread, op: Op, i: nat)
    requires OpEnabled(th.phase, op) && ThreadOK(e.cfg, e.gate, reg, t, ViewOf(th))
    requires !ContextOf(reg, i).observation.Live?
    ensures ContextOf(NextRegistry(e, reg, t, th, op), i).observation == ContextOf(reg, i).observation
  {
    OpReaches(e, reg, t, th, op);
    OpStages(e, reg, t, th, op);
  }

  lemma OpStages(e: Env, reg: Registry, t: nat, th: TaskThread, op: Op)
    requires OpEnabled(th.phase, op)
    ensures Inserts(e, reg, th, op) ==> StageOf(th.phase).Pending?
  {
  }

  lemma StepKeepsCause(e: Env, ts: TaskSide, step: TaskStep, i: nat)
    requires RegistryOK(e.cfg, e.gate, ts) && Enabled(e, ts, step) && !ContextOf(ts.reg, i).observation.Live?
    ensures ContextOf(Apply(e, ts, step).reg, i).observation == ContextOf(ts.reg, i).observation
  {
    if step.Thread? {
      assert ThreadOK(e.cfg, e.gate, ts.reg, step.t, Views(ts.threads)[step.t]);
      OpKeepsCause(e, ts.reg, step.t, ts.threads[step.t], step.op, i);
    }
  }

  /** Why the observation of an execution ended never changes afterwards. */
  lemma {:induction false} FirstCauseWins(run: seq<State>, m: nat, n: nat, i: nat)
    requires IsRun(run) && m <= n < |run| && !ContextOf(run[m].tasks.reg, i).observation.Live?
    ensures ContextOf(run[n].tasks.reg, i).observation == ContextOf(run[m].tasks.reg, i).observation
    decreases n
  {
    if m < n {
      FirstCauseWins(run, m, n - 1, i);
      RunRegistry(run, n - 1);
      var s := run[n - 1];
      var step := StepOf(run, n - 1);
      TasksUnder(s, step);
      if step.Task? {
        StepKeepsCause(EnvOf(s), s.tasks, step.task, i);
      }
    }
  }

  // ---------- the one-shot signal ----------

  ghost predicate SignalOK(cfg: Config, latch: Latch, threads: map<nat, TaskThread>) {
    cfg.oneShot ==> forall i :: i in threads && (threads[i].phase.Signalled? || threads[i].phase.Finished?) ==> latch.signalled
  }

  lemma StepKeepsSignal(e: Env, ts: TaskSide, step: TaskStep)
    requires Enabled(e, ts, step) && SignalOK(e.cfg, e.latch, ts.threads)
    ensures SignalOK(e.cfg, ApplyLatch(e, ts, step), Apply(e, ts, step).threads)
  {
    if step.Thread? {
      OpSignals(e, ts.reg, step.t, ts.threads[step.t], step.op);
    }
  }

  lemma OpSignals(e: Env, reg: Registry, t: nat, th: TaskThread, op: Op)
    requires OpEnabled(th.phase, op)
    ensures var p := Advance(e, reg, t, th, op).phase;
            p.Signalled? || p.Finished? ==> op.SignalOneShot? || th.phase.Signalled? || th.phase.Finished?
  {
  }

  /** In one-shot mode an execution that is over has signalled completion. */
  lemma {:induction false} OneShotSignals(run: seq<State>, n: nat)
    requires IsRun(run) && n < |run|
    ensures SignalOK(run[n].cfg, run[n].latch, run[n].tasks.threads)
  {
    if n > 0 {
      OneShotSignals(run, n - 1);
      var s := run[n - 1];
      var step := StepOf(run, n - 1);
      if step.Task? {
        StepKeepsSignal(EnvOf(s), s.tasks, step.task);
      }
    }
  }
}
