/** Every task step keeps the registry invariant. */
module WorkerSteps {
  import opened ReplayCache
  import opened WorkerState
  import opened WorkerProtocol
  import opened WorkerInvariant

  // ---------- the registry invariant over every step ----------

  lemma ViewsUpdate(threads: map<nat, TaskThread>, t: nat, th: TaskThread)
    ensures Views(threads[t := th]) == Views(threads)[t := ViewOf(th)]
  {
  }

  predicate Classifies(op: Op) {
    op.Classify? || op.ReadContext? || op.ReadSource? || op.SendReport?
  }

  /** Every operation extends a thread's history as its new program counter demands. */
  lemma AdvanceTrace(e: Env, reg: Registry, t: nat, th: TaskThread, op: Op)
    requires OpEnabled(th.phase, op) && TraceOK(th)
    requires StageOf(th.phase).Holding? ==> SeesStop(e.cfg, e.gate, reg, t, ViewOf(th))
    ensures TraceOK(Advance(e, reg, t, th, op))
  {
    if Classifies(op) {
      ClassifyTrace(e, reg, t, th, op);
    }
  }

  /** The report that follows an error is the one the first stop calls for. */
  lemma ClassifyTrace(e: Env, reg: Registry, t: nat, th: TaskThread, op: Op)
    requires OpEnabled(th.phase, op) && TraceOK(th) && Classifies(op)
    requires SeesStop(e.cfg, e.gate, reg, t, ViewOf(th))
    ensures TraceOK(Advance(e, reg, t, th, op))
  {
    var th' := Advance(e, reg, t, th, op);
    match op {
      case Classify =>
      case ReadContext =>
      case ReadSource =>
      case SendReport => assert th'.trace == Then(th.trace, ReportSent(th.phase.report));
    }
  }

  /** The operations that leave the guarded state alone. */
  predicate Plain(reg: Registry, gate: Gate, th: TaskThread, op: Op) {
    && !op.EndOwnContext? && !op.Bookkeep?
    && (op.SecondCheck? ==> gate.Closed() || Known(reg, th.key))
    && (op.Classify? && th.phase.Returned? ==> !th.phase.outcome.Spawned?)
  }

  lemma AdvanceStage(e: Env, reg: Registry, t: nat, th: TaskThread, op: Op)
    requires OpEnabled(th.phase, op) && Plain(reg, e.gate, th, op)
    ensures ViewOf(Advance(e, reg, t, th, op)).stage == ViewOf(th).stage
    ensures NextRegistry(e, reg, t, th, op) == reg
  {
  }

  /** The stop that the backend's return records is visible in the entry. */
  lemma AdvanceStop(e: Env, reg: Registry, t: nat, th: TaskThread, op: Op)
    requires OpEnabled(th.phase, op) && Plain(reg, e.gate, th, op)
    requires SeesStop(e.cfg, e.gate, reg, t, ViewOf(th))
    ensures SeesStop(e.cfg, e.gate, reg, t, ViewOf(Advance(e, reg, t, th, op)))
    ensures InterruptedPhase(NextPhase(e, reg, t, th, op)) && !InterruptedPhase(th.phase) ==> e.gate.shuttingDown
  {
  }

  lemma AdvanceView(e: Env, reg: Registry, t: nat, th: TaskThread, op: Op)
    requires ThreadOK(e.cfg, e.gate, reg, t, ViewOf(th))
    requires OpEnabled(th.phase, op) && Plain(reg, e.gate, th, op)
    ensures ThreadOK(e.cfg, e.gate, reg, t, ViewOf(Advance(e, reg, t, th, op)))
  {
    AdvanceStage(e, reg, t, th, op);
    var th' := Advance(e, reg, t, th, op);
    if StageOf(th.phase).Holding? {
      AdvanceStop(e, reg, t, th, op);
    } else {
      assert !InterruptedPhase(th'.phase);
    }
  }

  lemma OpAgrees(e: Env, ts: TaskSide, t: nat, op: Op)
    requires RegistryOK(e.cfg, e.gate, ts)
    requires t in ts.threads && OpEnabled(ts.threads[t].phase, op)
    ensures var ts' := ApplyOp(e, ts, t, op); Agree(e.cfg, e.gate, ts'.reg, Views(ts'.threads), ts.cancellers)
  {
    var th := ts.threads[t];
    var th' := Advance(e, ts.reg, t, th, op);
    var views := Views(ts.threads);
    assert ThreadOK(e.cfg, e.gate, ts.reg, t, views[t]);
    ViewsUpdate(ts.threads, t, th');
    if Plain(ts.reg, e.gate, th, op) {
      AdvanceStage(e, ts.reg, t, th, op);
      AdvanceView(e, ts.reg, t, th, op);
      AgreeSameStage(e.cfg, e.gate, ts.reg, views, ts.cancellers, t, ViewOf(th'));
    } else {
      ChangingOpAgrees(e, ts, t, op);
    }
  }

  /** How an operation that changes the guarded state moves its thread. */
  lemma ChangingOpView(e: Env, reg: Registry, t: nat, th: TaskThread, op: Op)
    requires OpEnabled(th.phase, op) && TraceOK(th) && !Plain(reg, e.gate, th, op)
    ensures var v, v' := ViewOf(th), ViewOf(Advance(e, reg, t, th, op));
            match op
            case SecondCheck => v.stage.Pending? && v' == View(th.key, Holding, NotStopped, false)
            case Classify => v.stage.Holding? && v' == v
            case EndOwnContext => v.stage.Holding? && v' == v
            case Bookkeep => v.stage.Holding? && v' == View(th.key, Released, v.stop, false)
            case _ => false
  {
  }

  lemma ChangingOpAgrees(e: Env, ts: TaskSide, t: nat, op: Op)
    requires RegistryOK(e.cfg, e.gate, ts)
    requires t in ts.threads && OpEnabled(ts.threads[t].phase, op) && !Plain(ts.reg, e.gate, ts.threads[t], op)
    ensures Agree(e.cfg, e.gate, NextRegistry(e, ts.reg, t, ts.threads[t], op),
                  Views(ts.threads)[t := ViewOf(Advance(e, ts.reg, t, ts.threads[t], op))], ts.cancellers)
  {
    var th := ts.threads[t];
    assert TraceOK(th);
    ChangingOpView(e, ts.reg, t, th, op);
    ChangingViewAgrees(e.cfg, e.gate, ts.reg, Views(ts.threads), ts.cancellers, t, th, op, ViewOf(Advance(e, ts.reg, t, th, op)));
  }

  lemma ChangingViewAgrees(cfg: Config, gate: Gate, reg: Registry, views: map<nat, View>, cancellers: map<Ticket, CancelPhase>, t: nat, th: TaskThread, op: Op, v': View)
    requires Agree(cfg, gate, reg, views, cancellers)
    requires t in views && views[t] == ViewOf(th) && OpEnabled(th.phase, op) && v'.key == th.key
    requires op.SecondCheck? ==> !Known(reg, th.key) && views[t].stage.Pending? && v' == View(th.key, Holding, NotStopped, false)
    requires op.Classify? || op.EndOwnContext? ==> v' == views[t]
    requires op.Bookkeep? ==> views[t].stage.Holding? && v'.stage.Released? && !v'.interrupted
    ensures op.SecondCheck? ==> Agree(cfg, gate, Insert(reg, th.key, t), views[t := v'], cancellers)
    ensures op.Classify? ==> Agree(cfg, gate, MarkSpawned(reg, th.key), views[t := v'], cancellers)
    ensures op.EndOwnContext? ==> Agree(cfg, gate, EndContext(reg, t), views[t := v'], cancellers)
    ensures op.Bookkeep? ==> Agree(cfg, gate, Settle(reg, th.key, th.phase.interrupted), views[t := v'], cancellers)
  {
    if op.SecondCheck? {
      AgreeInsert(cfg, gate, reg, views, cancellers, t, v');
    } else if op.Classify? {
      assert views[t := v'] == views;
      AgreeSpawn(cfg, gate, reg, views, cancellers, th.key);
    } else if op.EndOwnContext? {
      assert views[t := v'] == views;
      AgreeContext(cfg, gate, reg, views, cancellers, t);
    } else if op.Bookkeep? {
      AgreeSettle(cfg, gate, reg, views, cancellers, t, v', th.phase.interrupted);
    }
  }

  /** An operation adds its own identifier at most. */
  lemma OpRegistryIds(e: Env, reg: Registry, t: nat, th: TaskThread, op: Op)
    requires OpEnabled(th.phase, op)
    requires op.Bookkeep? ==> th.key in reg.active && reg.active[th.key].id == t
    ensures var reg' := NextRegistry(e, reg, t, th, op);
            && (forall k :: k in reg'.active ==> reg'.active[k].id == t || (k in reg.active && reg.active[k].id == reg'.active[k].id))
            && reg'.contexts.Keys <= reg.contexts.Keys + {t}
            && reg'.doneCloses == (if op.Bookkeep? then reg.doneCloses + multiset{t} else reg.doneCloses)
  {
    if op.Bookkeep? {
      SettleFacts(reg, th.key, th.phase.interrupted);
    }
  }

  lemma OpIds(e: Env, reg: Registry, views: map<nat, View>, tickets: set<Ticket>, calls: seq<Ticket>, next: nat, t: nat, th: TaskThread, op: Op, v': View)
    requires ClosesOK(reg, calls) && IdsOK(reg, views, tickets, next)
    requires t in views && OpEnabled(th.phase, op)
    requires op.Bookkeep? ==> th.key in reg.active && reg.active[th.key].id == t && reg.doneCloses[t] == 0
    ensures var reg' := NextRegistry(e, reg, t, th, op);
            ClosesOK(reg', calls) && IdsOK(reg', views[t := v'], tickets, next)
  {
    OpRegistryIds(e, reg, t, th, op);
  }

  lemma OpKeeps(e: Env, ts: TaskSide, t: nat, op: Op)
    requires RegistryOK(e.cfg, e.gate, ts)
    requires t in ts.threads && OpEnabled(ts.threads[t].phase, op)
    ensures RegistryOK(e.cfg, e.gate, ApplyOp(e, ts, t, op))
  {
    assert ThreadOK(e.cfg, e.gate, ts.reg, t, Views(ts.threads)[t]);
    assert TraceOK(ts.threads[t]);
    AdvanceTrace(e, ts.reg, t, ts.threads[t], op);
    OpAgrees(e, ts, t, op);
    var th' := Advance(e, ts.reg, t, ts.threads[t], op);
    OpIds(e, ts.reg, Views(ts.threads), ts.cancellers.Keys, ts.cancelCalls, ts.next, t, ts.threads[t], op, ViewOf(th'));
    ViewsUpdate(ts.threads, t, th');
    var ts' := ApplyOp(e, ts, t, op);
    assert TracesOK(ts'.threads);
    assert ts'.cancellers == ts.cancellers;
  }

  lemma ReceiveKeeps(cfg: Config, gate: Gate, ts: TaskSide, key: TaskExecution)
    requires RegistryOK(cfg, gate, ts)
    ensures RegistryOK(cfg, gate, ts.(threads := ts.threads[ts.next := TaskThread(key, Received, Start)], next := ts.next + 1))
  {
    var th := TaskThread(key, Received, Start);
    ViewsUpdate(ts.threads, ts.next, th);
    var views := Views(ts.threads);
    var views' := views[ts.next := ViewOf(th)];
    assert ts.next !in views;
    forall i | i in views' ensures ThreadOK(cfg, gate, ts.reg, i, views'[i]) {
      if i in views {
        assert ThreadOK(cfg, gate, ts.reg, i, views[i]);
      }
    }
    forall k | k in ts.reg.active ensures EntryOK(gate, ts.reg, views', ts.cancellers.Keys, k, ts.reg.active[k]) {
      assert EntryOK(gate, ts.reg, views, ts.cancellers.Keys, k, ts.reg.active[k]);
    }
    forall c | c in ts.cancellers ensures CancellerOK(ts.reg, views', c, ts.cancellers[c]) {
      assert CancellerOK(ts.reg, views, c, ts.cancellers[c]);
    }
  }

  lemma CancelRequestIds(reg: Registry, views: map<nat, View>, cancellers: map<Ticket, CancelPhase>, calls: seq<Ticket>, next: nat, key: TaskExecution)
    requires ClosesOK(reg, calls) && IdsOK(reg, views, cancellers.Keys, next)
    ensures var mid := Prepared(reg, key, next);
            var keys := Targets(reg, key);
            && ClosesOK(StartCancellations(mid, keys), calls)
            && IdsOK(StartCancellations(mid, keys), views, WithStarted(mid, cancellers, keys).Keys, next + 1)
  {
    var mid := Prepared(reg, key, next);
    assert forall k :: k in mid.active ==> mid.active[k].id < next + 1;
  }

  lemma CancelRequestKeeps(cfg: Config, gate: Gate, ts: TaskSide, key: TaskExecution)
    requires RegistryOK(cfg, gate, ts) && !gate.shuttingDown
    ensures RegistryOK(cfg, gate, ApplyCancelRequest(ts, key))
  {
    var views := Views(ts.threads);
    var mid := Prepared(ts.reg, key, ts.next);
    if key.executionID != "" {
      AgreePlaceholder(cfg, gate, ts.reg, views, ts.cancellers, key, ts.next);
    }
    AgreeStart(cfg, gate, mid, views, ts.cancellers, Targets(ts.reg, key));
    CancelRequestIds(ts.reg, views, ts.cancellers, ts.cancelCalls, ts.next, key);
    assert ApplyCancelRequest(ts, key).cancellers == WithStarted(mid, ts.cancellers, Targets(ts.reg, key));
  }

  lemma CancelMoveKeeps(cfg: Config, gate: Gate, ts: TaskSide, c: Ticket, m: CancelMove)
    requires RegistryOK(cfg, gate, ts)
    requires c in ts.cancellers && CancelMoveEnabled(gate, ts, c, m)
    ensures RegistryOK(cfg, gate, ApplyCancelMove(ts, c, m))
  {
    var views := Views(ts.threads);
    var ts' := ApplyCancelMove(ts, c, m);
    assert CancellerOK(ts.reg, views, c, ts.cancellers[c]);
    if m.Record? {
      AgreeAccept(cfg, gate, ts.reg, views, ts.cancellers, c);
    } else {
      AgreeCancelMove(cfg, gate, ts.reg, views, ts.cancellers, c, ts'.cancellers[c]);
    }
    assert ts'.cancellers.Keys == ts.cancellers.Keys;
  }

  /** Every task step keeps the registry invariant. */
  lemma StepKeepsRegistry(e: Env, ts: TaskSide, step: TaskStep)
    requires RegistryOK(e.cfg, e.gate, ts) && Enabled(e, ts, step)
    ensures RegistryOK(e.cfg, e.gate, Apply(e, ts, step))
  {
    match step
    case Receive(key) => ReceiveKeeps(e.cfg, e.gate, ts, key);
    case Thread(t, op) => OpKeeps(e, ts, t, op);
    case CancelRequest(key) => CancelRequestKeeps(e.cfg, e.gate, ts, key);
    case MoveCanceller(c, m) => CancelMoveKeeps(e.cfg, e.gate, ts, c, m);
    case PropagateContext(id) => AgreeContext(e.cfg, e.gate, ts.reg, Views(ts.threads), ts.cancellers, id);
  }

  lemma StopKeepsRegistry(cfg: Config, gate: Gate, ts: TaskSide)
    requires RegistryOK(cfg, gate, ts)
    ensures RegistryOK(cfg, gate.(shuttingDown := true), ApplyStop(cfg, ts))
  {
    AgreeStop(cfg, gate, ts.reg, Views(ts.threads), ts.cancellers);
  }
}
