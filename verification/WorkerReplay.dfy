/** The replay window of completed executions and the one-shot latch. */
module WorkerReplay {
  import opened ReplayCache
  import opened WorkerState
  import opened WorkerProtocol
  import opened WorkerInvariant
  import opened WorkerSteps

  // ---------- the replay window ----------

  type Marks = map<nat, Mark>

  /** The entry of a thread is still there. */
  predicate Owns(reg: Registry, i: nat, key: TaskExecution) {
    key in reg.active && reg.active[key].local && reg.active[key].id == i
  }

  /** Why the execution that thread `i` claimed cannot run again: its own entry is still
      there, or it was recorded after the claim, or nothing is admitted any more. */
  ghost predicate Blocked(gate: Gate, reg: Registry, completions: seq<TaskExecution>, i: nat, key: TaskExecution, since: nat) {
    || Owns(reg, i, key)
    || InsertedSince(completions, key, since)
    || gate.shuttingDown
  }

  ghost predicate ClaimOK(gate: Gate, reg: Registry, completions: seq<TaskExecution>, claims: Marks, i: nat, key: TaskExecution) {
    && i in claims && claims[i].completions <= |completions|
    && (key.executionID != "" ==> Blocked(gate, reg, completions, i, key, claims[i].completions))
  }

  /** An execution that has its entry is not recorded as completed. */
  ghost predicate ActiveUnrecorded(reg: Registry) {
    forall k :: k in reg.active && reg.active[k].local ==> k !in reg.completed.entries
  }

  ghost predicate ClaimsOK(gate: Gate, reg: Registry, views: map<nat, View>, completions: seq<TaskExecution>, claims: Marks) {
    forall i :: i in views && !views[i].stage.Pending? ==> ClaimOK(gate, reg, completions, claims, i, views[i].key)
  }

  ghost predicate WindowOK(gate: Gate, reg: Registry, views: map<nat, View>, completions: seq<TaskExecution>, claims: Marks) {
    && Tracks(reg.completed, completions)
    && (forall n :: 0 <= n < |completions| ==> completions[n].executionID != "")
    && ActiveUnrecorded(reg)
    && ClaimsOK(gate, reg, views, completions, claims)
  }

  ghost predicate ReplayOK(gate: Gate, ts: TaskSide) {
    WindowOK(gate, ts.reg, Views(ts.threads), ts.completions, ts.claims)
  }

  /** Recording a key while its entry goes away leaves every claimed key blocked: an entry
      that an execution owns was not recorded, so its key is inserted anew. */
  lemma RecordKeeps(gate: Gate, reg: Registry, views: map<nat, View>, completions: seq<TaskExecution>, claims: Marks, key: TaskExecution, accepted: bool, reg': Registry)
    requires WindowOK(gate, reg, views, completions, claims) && key.executionID != ""
    requires reg'.completed == Put(reg.completed, key, accepted) && reg'.active == reg.active - {key}
    ensures WindowOK(gate, reg', views, Insertions(reg.completed, completions, key), claims)
  {
    var completions' := Insertions(reg.completed, completions, key);
    PutTracks(reg.completed, completions, key, accepted);
    forall i | i in views && !views[i].stage.Pending?
      ensures ClaimOK(gate, reg', completions', claims, i, views[i].key)
    {
      assert ClaimOK(gate, reg, completions, claims, i, views[i].key);
      RecordBlocks(gate, reg, completions, i, views[i].key, claims[i].completions, key, reg');
    }
  }

  lemma RecordBlocks(gate: Gate, reg: Registry, completions: seq<TaskExecution>, i: nat, k: TaskExecution, since: nat, key: TaskExecution, reg': Registry)
    requires k.executionID != "" ==> Blocked(gate, reg, completions, i, k, since)
    requires ActiveUnrecorded(reg) && reg'.active == reg.active - {key} && since <= |completions|
    ensures k.executionID != "" ==> Blocked(gate, reg', Insertions(reg.completed, completions, key), i, k, since)
  {
    var completions' := Insertions(reg.completed, completions, key);
    if InsertedSince(completions, k, since) {
      InsertedSinceGrows(completions, completions', k, since);
    } else if Owns(reg, i, k) && k == key {
      assert completions'[|completions|] == k;
    }
  }

  /** Without a recording, a claimed key stays blocked as long as its entry stays. */
  lemma NoRecordKeeps(gate: Gate, gate': Gate, reg: Registry, reg': Registry, views: map<nat, View>, views': map<nat, View>, completions: seq<TaskExecution>, claims: Marks, claims': Marks)
    requires WindowOK(gate, reg, views, completions, claims)
    requires reg'.completed == reg.completed && (gate.shuttingDown ==> gate'.shuttingDown)
    requires forall i, k :: Owns(reg, i, k) ==> Owns(reg', i, k) || k.executionID == "" || gate'.shuttingDown
    requires forall k :: k in reg'.active && reg'.active[k].local ==> k !in reg.completed.entries
    requires forall i :: i in views' && !views'[i].stage.Pending? ==>
               || (i in views && !views[i].stage.Pending? && views[i].key == views'[i].key && i in claims && i in claims' && claims'[i] == claims[i])
               || (i in claims' && claims'[i].completions == |completions| && Owns(reg', i, views'[i].key))
    ensures WindowOK(gate', reg', views', completions, claims')
  {
    forall i | i in views' && !views'[i].stage.Pending?
      ensures ClaimOK(gate', reg', completions, claims', i, views'[i].key)
    {
      if !Owns(reg', i, views'[i].key) || claims'[i].completions != |completions| {
        assert ClaimOK(gate, reg, completions, claims, i, views[i].key);
      }
    }
  }

  /** Entries may come and go as long as no execution's own entry is lost unrecorded. */
  lemma SameEntriesKeep(gate: Gate, gate': Gate, reg: Registry, reg': Registry, views: map<nat, View>, completions: seq<TaskExecution>, claims: Marks)
    requires WindowOK(gate, reg, views, completions, claims)
    requires reg'.completed == reg.completed && (gate.shuttingDown ==> gate'.shuttingDown)
    requires forall k :: k in reg.active && k.executionID != "" && !gate'.shuttingDown ==> k in reg'.active
    requires forall k :: k in reg'.active ==>
               !reg'.active[k].local || (k in reg.active && reg.active[k].local)
    requires forall k :: k in reg.active && k in reg'.active ==>
               reg'.active[k].local == reg.active[k].local && reg'.active[k].id == reg.active[k].id
    ensures WindowOK(gate', reg', views, completions, claims)
  {
    forall i | i in views && !views[i].stage.Pending? ensures i in claims {
      assert ClaimOK(gate, reg, completions, claims, i, views[i].key);
    }
    NoRecordKeeps(gate, gate', reg, reg', views, views, completions, claims, claims);
  }

  /** Settling moves the key from the entries to the window, unless the entry stays. */
  lemma SettleKeepsReplay(cfg: Config, gate: Gate, reg: Registry, views: map<nat, View>, completions: seq<TaskExecution>, claims: Marks, t: nat, v': View, interrupted: bool)
    requires WindowOK(gate, reg, views, completions, claims)
    requires t in views && v'.key in reg.active
    requires v'.key == views[t].key && views[t].stage.Holding? && (interrupted ==> gate.shuttingDown)
    ensures WindowOK(gate, Settle(reg, v'.key, interrupted), views[t := v'],
                     if Remembers(reg, v'.key, interrupted) then Insertions(reg.completed, completions, v'.key) else completions, claims)
  {
    var reg' := Settle(reg, v'.key, interrupted);
    if Remembers(reg, v'.key, interrupted) {
      SettleRecords(reg, v'.key);
      RecordKeeps(gate, reg, views, completions, claims, v'.key, false, reg');
      SameClaims(gate, reg', views, views[t := v'], Insertions(reg.completed, completions, v'.key), claims);
    } else {
      SettleUnrecorded(reg, v'.key, interrupted);
      SameEntriesKeep(gate, gate, reg, reg', views, completions, claims);
      SameClaims(gate, reg', views, views[t := v'], completions, claims);
    }
  }

  lemma SettleRecords(r: Registry, key: TaskExecution)
    requires Remembers(r, key, false)
    ensures Settle(r, key, false).completed == Put(r.completed, key, false)
    ensures Settle(r, key, false).active == r.active - {key}
  {
  }

  lemma SettleUnrecorded(r: Registry, key: TaskExecution, interrupted: bool)
    requires key in r.active && !Remembers(r, key, interrupted)
    ensures var r' := Settle(r, key, interrupted);
            && r'.completed == r.completed
            && (r'.active == r.active || (r'.active == r.active - {key} && (key.executionID == "" || interrupted)))
  {
  }

  /** Only keys and stages of the threads matter. */
  lemma SameClaims(gate: Gate, reg: Registry, views: map<nat, View>, views': map<nat, View>, completions: seq<TaskExecution>, claims: Marks)
    requires WindowOK(gate, reg, views, completions, claims)
    requires forall i :: i in views' && !views'[i].stage.Pending? ==> i in views && !views[i].stage.Pending? && views[i].key == views'[i].key
    ensures WindowOK(gate, reg, views', completions, claims)
  {
  }

  lemma InsertKeepsReplay(gate: Gate, reg: Registry, views: map<nat, View>, completions: seq<TaskExecution>, claims: Marks, t: nat, v': View, mark: Mark)
    requires WindowOK(gate, reg, views, completions, claims)
    requires t in views && views[t].stage.Pending? && !Known(reg, v'.key) && mark.completions == |completions|
    ensures WindowOK(gate, Insert(reg, v'.key, t), views[t := v'], completions, claims[t := mark])
  {
    forall i | i in views && !views[i].stage.Pending? ensures i in claims {
      assert ClaimOK(gate, reg, completions, claims, i, views[i].key);
    }
    NoRecordKeeps(gate, gate, reg, Insert(reg, v'.key, t), views, views[t := v'], completions, claims, claims[t := mark]);
  }

  lemma OtherOpKeepsReplay(e: Env, reg: Registry, views: map<nat, View>, completions: seq<TaskExecution>, claims: Marks, t: nat, th: TaskThread, op: Op)
    requires WindowOK(e.gate, reg, views, completions, claims)
    requires t in views && views[t] == ViewOf(th)
    requires OpEnabled(th.phase, op) && !op.Bookkeep? && !Inserts(e, reg, th, op)
    ensures WindowOK(e.gate, NextRegistry(e, reg, t, th, op), views[t := ViewOf(Advance(e, reg, t, th, op))], completions, claims)
  {
    OpStage(e, reg, t, th, op);
    var reg' := NextRegistry(e, reg, t, th, op);
    SameEntriesKeep(e.gate, e.gate, reg, reg', views, completions, claims);
    SameClaims(e.gate, reg', views, views[t := ViewOf(Advance(e, reg, t, th, op))], completions, claims);
  }

  lemma OpKeepsReplay(e: Env, ts: TaskSide, t: nat, op: Op)
    requires ReplayOK(e.gate, ts)
    requires t in ts.threads && OpEnabled(ts.threads[t].phase, op)
    requires ThreadOK(e.cfg, e.gate, ts.reg, t, ViewOf(ts.threads[t]))
    ensures ReplayOK(e.gate, ApplyOp(e, ts, t, op))
  {
    var th := ts.threads[t];
    var th' := Advance(e, ts.reg, t, th, op);
    var views := Views(ts.threads);
    ViewsUpdate(ts.threads, t, th');
    if op.Bookkeep? {
      assert OwnsEntry(e.cfg, e.gate, ts.reg, t, ViewOf(th));
      SettleKeepsReplay(e.cfg, e.gate, ts.reg, views, ts.completions, ts.claims, t, ViewOf(th'), th.phase.interrupted);
    } else if Inserts(e, ts.reg, th, op) {
      InsertKeepsReplay(e.gate, ts.reg, views, ts.completions, ts.claims, t, ViewOf(th'), Mark(|ts.completions|, |ts.requests|));
    } else {
      OtherOpKeepsReplay(e, ts.reg, views, ts.completions, ts.claims, t, th, op);
    }
  }

  /** A thread leaves the pending stage only by inserting its entry. */
  lemma OpStage(e: Env, reg: Registry, t: nat, th: TaskThread, op: Op)
    requires OpEnabled(th.phase, op) && !op.Bookkeep?
    ensures var th', reg' := Advance(e, reg, t, th, op), NextRegistry(e, reg, t, th, op);
            && th'.key == th.key && reg'.completed == reg.completed && reg.active.Keys <= reg'.active.Keys
            && (forall k :: k in reg.active ==> reg'.active[k].local == reg.active[k].local && reg'.active[k].id == reg.active[k].id)
            && if Inserts(e, reg, th, op)
               then StageOf(th.phase).Pending? && th'.phase.Inserted? && reg' == Insert(reg, th.key, t)
               else StageOf(th'.phase) == StageOf(th.phase) && reg'.active.Keys == reg.active.Keys
  {
  }

  lemma CancelRequestKeepsReplay(gate: Gate, ts: TaskSide, key: TaskExecution)
    requires ReplayOK(gate, ts)
    ensures ReplayOK(gate, ApplyCancelRequest(ts, key))
  {
    var reg' := RequestCancellation(ts.reg, key, ts.next);
    SameEntriesKeep(gate, gate, ts.reg, reg', Views(ts.threads), ts.completions, ts.claims);
  }

  lemma CancelMoveKeepsReplay(gate: Gate, ts: TaskSide, c: Ticket, m: CancelMove)
    requires ReplayOK(gate, ts)
    ensures ReplayOK(gate, ApplyCancelMove(ts, c, m))
  {
    var views, reg' := Views(ts.threads), ApplyCancelMove(ts, c, m).reg;
    if m.Record? && c.key.executionID != "" {
      RecordKeeps(gate, ts.reg, views, ts.completions, ts.claims, c.key, true, reg');
    } else {
      SameEntriesKeep(gate, gate, ts.reg, reg', views, ts.completions, ts.claims);
    }
  }

  lemma ReceiveKeepsReplay(gate: Gate, ts: TaskSide, key: TaskExecution)
    requires ReplayOK(gate, ts)
    ensures ReplayOK(gate, ts.(threads := ts.threads[ts.next := TaskThread(key, Received, Start)], next := ts.next + 1))
  {
    var th := TaskThread(key, Received, Start);
    ViewsUpdate(ts.threads, ts.next, th);
    SameClaims(gate, ts.reg, Views(ts.threads), Views(ts.threads[ts.next := th]), ts.completions, ts.claims);
  }

  /** Every task step keeps the replay window. */
  lemma StepKeepsReplay(e: Env, ts: TaskSide, step: TaskStep)
    requires ReplayOK(e.gate, ts) && Enabled(e, ts, step)
    requires step.Thread? ==> ThreadOK(e.cfg, e.gate, ts.reg, step.t, ViewOf(ts.threads[step.t]))
    ensures ReplayOK(e.gate, Apply(e, ts, step))
  {
    match step
    case Receive(key) => ReceiveKeepsReplay(e.gate, ts, key);
    case Thread(t, op) => OpKeepsReplay(e, ts, t, op);
    case CancelRequest(key) => CancelRequestKeepsReplay(e.gate, ts, key);
    case MoveCanceller(c, m) => CancelMoveKeepsReplay(e.gate, ts, c, m);
    case PropagateContext(id) =>
      SameEntriesKeep(e.gate, e.gate, ts.reg, EndContext(ts.reg, id), Views(ts.threads), ts.completions, ts.claims);
  }

  lemma StopKeepsReplay(cfg: Config, gate: Gate, ts: TaskSide)
    requires ReplayOK(gate, ts)
    ensures ReplayOK(gate.(shuttingDown := true), ApplyStop(cfg, ts))
  {
    SameEntriesKeep(gate, gate.(shuttingDown := true), ts.reg, ApplyStop(cfg, ts).reg, Views(ts.threads), ts.completions, ts.claims);
  }

  // ---------- the one-shot latch ----------

  /** While one assignment holds the latch no other does, and completion is signalled
      only by an execution whose slot is already returned. */
  ghost predicate OneShotOK(cfg: Config, latch: Latch, threads: map<nat, TaskThread>) {
    && (cfg.oneShot ==>
          && (forall i :: i in threads && InOneShotWindow(threads[i].phase) ==> latch.accepted)
          && (forall i, j :: i in threads && j in threads && InOneShotWindow(threads[i].phase) && InOneShotWindow(threads[j].phase) ==> i == j))
    && (latch.signalled ==> exists i :: i in threads && (threads[i].phase.Signalled? || threads[i].phase.Finished?))
  }

  /** What an operation does to the latch and to its thread's place in the window. */
  lemma OpLatch(e: Env, ts: TaskSide, t: nat, op: Op)
    requires t in ts.threads && OpEnabled(ts.threads[t].phase, op) && e.cfg.oneShot
    ensures var latch' := ApplyLatch(e, ts, Thread(t, op));
            var was, now := InOneShotWindow(ts.threads[t].phase), InOneShotWindow(Advance(e, ts.reg, t, ts.threads[t], op).phase);
            && (now && !was ==> !e.latch.accepted && latch'.accepted)
            && (e.latch.accepted && !latch'.accepted ==> was && !now)
  {
  }

  lemma OpKeepsOneShot(e: Env, ts: TaskSide, t: nat, op: Op)
    requires t in ts.threads && OpEnabled(ts.threads[t].phase, op)
    requires OneShotOK(e.cfg, e.latch, ts.threads)
    ensures OneShotOK(e.cfg, ApplyLatch(e, ts, Thread(t, op)), ApplyOp(e, ts, t, op).threads)
  {
    var threads' := ApplyOp(e, ts, t, op).threads;
    if e.cfg.oneShot {
      OpLatch(e, ts, t, op);
    }
    if e.latch.signalled {
      var i :| i in ts.threads && (ts.threads[i].phase.Signalled? || ts.threads[i].phase.Finished?);
      assert threads'[i].phase.Signalled? || threads'[i].phase.Finished?;
    } else if ApplyLatch(e, ts, Thread(t, op)).signalled {
      assert threads'[t].phase.Signalled?;
    }
  }

  lemma StepKeepsOneShot(e: Env, ts: TaskSide, step: TaskStep)
    requires Enabled(e, ts, step) && OneShotOK(e.cfg, e.latch, ts.threads)
    requires forall i :: i in ts.threads ==> i < ts.next
    ensures OneShotOK(e.cfg, ApplyLatch(e, ts, step), Apply(e, ts, step).threads)
  {
    match step
    case Thread(t, op) => OpKeepsOneShot(e, ts, t, op);
    case Receive(key) =>
      var threads' := Apply(e, ts, step).threads;
      assert forall i :: i in ts.threads ==> threads'[i] == ts.threads[i];
    case _ =>
  }
}
