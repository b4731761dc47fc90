/** Where stops and backend cancellations come from: a user's stop from a request made
    after the claim, an interruption from the shutdown of a worker that preserves its
    tasks, and a backend cancellation from an execution that ran and has settled. */
module WorkerOrigins {
  import opened Options
  import opened ReplayCache
  import opened WorkerState
  import opened WorkerProtocol
  import opened WorkerInvariant
  import opened WorkerSteps
  import opened WorkerReplay

  // ---------- stops ----------

  predicate NotesUser(e: Event) {
    || (e.ExecuteReturned? && e.stop.UserStopped?)
    || (e.Looked? && e.stop.UserStopped?)
    || (e.Interrupted? && e.stop.UserStopped?)
    || (e.SawSource? && e.user)
  }

  predicate NotesInterruption(e: Event) {
    || (e.ExecuteReturned? && e.stop.ObservationStopped?)
    || (e.Looked? && e.stop.ObservationStopped?)
    || (e.Interrupted? && e.stop.ObservationStopped?)
  }

  /** A user's cancellation was seen at some point of the history. */
  predicate SeenUser(h: History) {
    h.Then? && (NotesUser(h.last) || SeenUser(h.before))
  }

  predicate SeenInterruption(h: History) {
    h.Then? && (NotesInterruption(h.last) || SeenInterruption(h.before))
  }

  /** The request is for this execution, or for all executions of its task. */
  predicate Covers(request: TaskExecution, key: TaskExecution) {
    request.taskID == key.taskID && (request.executionID == "" || request == key)
  }

  ghost predicate AskedSince(requests: seq<TaskExecution>, key: TaskExecution, since: nat) {
    exists n :: since <= n < |requests| && Covers(requests[n], key)
  }

  lemma AskedSinceGrows(requests: seq<TaskExecution>, longer: seq<TaskExecution>, key: TaskExecution, since: nat)
    requires requests <= longer && AskedSince(requests, key, since)
    ensures AskedSince(longer, key, since)
  {
    var n :| since <= n < |requests| && Covers(requests[n], key);
    assert Covers(longer[n], key);
  }

  ghost predicate Asked(requests: seq<TaskExecution>, claims: Marks, i: nat, key: TaskExecution) {
    i in claims && claims[i].requests <= |requests| && AskedSince(requests, key, claims[i].requests)
  }

  ghost predicate SourcesOK(reg: Registry, requests: seq<TaskExecution>, claims: Marks) {
    && (forall i :: i in claims ==> claims[i].requests <= |requests|)
    && (forall k :: k in reg.active && reg.active[k].local ==>
          reg.active[k].id in claims && (reg.active[k].source.UserSource? ==> Asked(requests, claims, reg.active[k].id, k)))
  }

  ghost predicate StopsOK(cfg: Config, gate: Gate, requests: seq<TaskExecution>, claims: Marks, i: nat, th: TaskThread) {
    && (SeenUser(th.trace) ==> Asked(requests, claims, i, th.key))
    && (SeenInterruption(th.trace) ==> gate.shuttingDown && cfg.preserves)
  }

  ghost predicate AllStopsOK(cfg: Config, gate: Gate, threads: map<nat, TaskThread>, requests: seq<TaskExecution>, claims: Marks) {
    forall i :: i in threads ==> StopsOK(cfg, gate, requests, claims, i, threads[i])
  }

  /** What an operation notes about stops is what the record and its context show. */
  lemma NotedStops(e: Env, reg: Registry, t: nat, th: TaskThread, op: Op)
    requires OpEnabled(th.phase, op)
    ensures var event := NewEvent(reg, t, th, op);
            event.Some? ==>
              && (NotesUser(event.value) ==> StageOf(th.phase).Holding? && SourceOf(reg, th.key).UserSource?)
              && (NotesInterruption(event.value) ==> StageOf(th.phase).Holding? && ContextOf(reg, t).observation.InterruptCause?)
  {
  }

  lemma OpKeepsStops(e: Env, reg: Registry, t: nat, th: TaskThread, op: Op, requests: seq<TaskExecution>, claims: Marks)
    requires OpEnabled(th.phase, op) && ThreadOK(e.cfg, e.gate, reg, t, ViewOf(th))
    requires SourcesOK(reg, requests, claims) && StopsOK(e.cfg, e.gate, requests, claims, t, th)
    ensures StopsOK(e.cfg, e.gate, requests, claims, t, Advance(e, reg, t, th, op))
  {
    NotedStops(e, reg, t, th, op);
  }

  lemma OpKeepsSources(e: Env, reg: Registry, t: nat, th: TaskThread, op: Op, requests: seq<TaskExecution>, claims: Marks)
    requires OpEnabled(th.phase, op) && SourcesOK(reg, requests, claims) && !Inserts(e, reg, th, op)
    ensures SourcesOK(NextRegistry(e, reg, t, th, op), requests, claims)
  {
    if op.Bookkeep? {
      SettleActive(reg, th.key, th.phase.interrupted);
    }
  }

  lemma SettleActive(r: Registry, key: TaskExecution, interrupted: bool)
    ensures var a := Settle(r, key, interrupted).active; a == r.active || a == r.active - {key}
  {
    if key in r.active {
      SettleFacts(r, key, interrupted);
    }
  }

  lemma InsertKeepsSources(reg: Registry, key: TaskExecution, t: nat, requests: seq<TaskExecution>, claims: Marks, mark: Mark)
    requires SourcesOK(reg, requests, claims) && mark.requests == |requests|
    requires forall k :: k in reg.active && reg.active[k].local ==> reg.active[k].id != t
    ensures SourcesOK(Insert(reg, key, t), requests, claims[t := mark])
  {
  }

  /** A request marks only records that it covers. */
  lemma RequestKeepsSources(reg: Registry, key: TaskExecution, newId: nat, requests: seq<TaskExecution>, claims: Marks)
    requires SourcesOK(reg, requests, claims)
    ensures SourcesOK(RequestCancellation(reg, key, newId), requests + [key], claims)
  {
    var reg' := RequestCancellation(reg, key, newId);
    var requests' := requests + [key];
    forall k | k in reg'.active && reg'.active[k].local && reg'.active[k].source.UserSource?
      ensures Asked(requests', claims, reg'.active[k].id, k)
    {
      if reg.active[k].source.UserSource? {
        AskedSinceGrows(requests, requests', k, claims[reg.active[k].id].requests);
      } else {
        assert Covers(requests'[|requests|], k);
      }
    }
  }

  // ---------- backend cancellations ----------

  /** Some execution of this key ran and has settled. */
  ghost predicate Ran(views: map<nat, View>, key: TaskExecution) {
    exists i :: i in views && views[i].key == key && views[i].stage.Released?
  }

  /** Recorded keys, placeholder records and backend cancellations all belong to executions
      that ran and have settled. */
  ghost predicate RanOK(reg: Registry, views: map<nat, View>, completions: seq<TaskExecution>, calls: seq<Ticket>) {
    && (forall n :: 0 <= n < |completions| ==> Ran(views, completions[n]))
    && (forall k :: k in reg.active && !reg.active[k].local ==> Ran(views, k))
    && (forall n :: 0 <= n < |calls| ==> Ran(views, calls[n].key))
  }

  lemma RanStays(views: map<nat, View>, t: nat, v: View, key: TaskExecution)
    requires Ran(views, key)
    requires t in views ==> v.key == views[t].key && (views[t].stage.Released? ==> v.stage.Released?)
    ensures Ran(views[t := v], key)
  {
    var i :| i in views && views[i].key == key && views[i].stage.Released?;
    var views' := views[t := v];
    assert i in views' && views'[i].key == key && views'[i].stage.Released?;
  }

  lemma ThreadMoveKeepsRan(reg: Registry, views: map<nat, View>, completions: seq<TaskExecution>, calls: seq<Ticket>, t: nat, v: View)
    requires RanOK(reg, views, completions, calls)
    requires t in views ==> v.key == views[t].key && (views[t].stage.Released? ==> v.stage.Released?)
    ensures RanOK(reg, views[t := v], completions, calls)
  {
    forall k | Ran(views, k) ensures Ran(views[t := v], k) {
      RanStays(views, t, v, k);
    }
  }

  /** The execution whose record a canceller works on has run and settled. */
  lemma CancellerRan(cfg: Config, gate: Gate, reg: Registry, views: map<nat, View>, cancellers: map<Ticket, CancelPhase>, completions: seq<TaskExecution>, calls: seq<Ticket>, c: Ticket)
    requires Agree(cfg, gate, reg, views, cancellers) && RanOK(reg, views, completions, calls)
    requires c in cancellers && !cancellers[c].WaitingDone? && !cancellers[c].Exited?
    ensures Ran(views, c.key)
    ensures forall i :: i in views && views[i].key == c.key ==> !views[i].stage.Holding?
  {
    assert CancellerOK(reg, views, c, cancellers[c]);
    assert EntryOK(gate, reg, views, cancellers.Keys, c.key, reg.active[c.key]);
    if reg.active[c.key].local {
      assert ThreadOK(cfg, gate, reg, c.id, views[c.id]);
    }
    forall i | i in views && views[i].key == c.key ensures !views[i].stage.Holding? {
      assert ThreadOK(cfg, gate, reg, i, views[i]);
    }
  }

  lemma CompletionRan(reg: Registry, views: map<nat, View>, completions: seq<TaskExecution>, calls: seq<Ticket>, key: TaskExecution, reg': Registry)
    requires RanOK(reg, views, completions, calls) && Ran(views, key)
    requires reg'.active == reg.active - {key} || reg'.active == reg.active
    ensures RanOK(reg', views, Insertions(reg.completed, completions, key), calls)
  {
  }

  // ---------- every step ----------

  ghost predicate OriginsOK(cfg: Config, gate: Gate, ts: TaskSide) {
    && SourcesOK(ts.reg, ts.requests, ts.claims)
    && AllStopsOK(cfg, gate, ts.threads, ts.requests, ts.claims)
    && RanOK(ts.reg, Views(ts.threads), ts.completions, ts.cancelCalls)
  }

  lemma OpKeepsRan(e: Env, ts: TaskSide, t: nat, op: Op)
    requires RanOK(ts.reg, Views(ts.threads), ts.completions, ts.cancelCalls)
    requires t in ts.threads && OpEnabled(ts.threads[t].phase, op)
    ensures var ts' := ApplyOp(e, ts, t, op); RanOK(ts'.reg, Views(ts'.threads), ts'.completions, ts'.cancelCalls)
  {
    var th := ts.threads[t];
    var th' := Advance(e, ts.reg, t, th, op);
    var reg' := NextRegistry(e, ts.reg, t, th, op);
    var views' := Views(ts.threads)[t := ViewOf(th')];
    ViewsUpdate(ts.threads, t, th');
    if op.Bookkeep? {
      SettleActive(ts.reg, th.key, th.phase.interrupted);
      ThreadMoveKeepsRan(ts.reg, Views(ts.threads), ts.completions, ts.cancelCalls, t, ViewOf(th'));
      assert t in views' && views'[t].key == th.key && views'[t].stage.Released?;
      CompletionRan(ts.reg, views', ts.completions, ts.cancelCalls, th.key, reg');
    } else {
      OpStage(e, ts.reg, t, th, op);
      ThreadMoveKeepsRan(ts.reg, Views(ts.threads), ts.completions, ts.cancelCalls, t, ViewOf(th'));
      assert forall k :: k in reg'.active && !reg'.active[k].local ==> k in ts.reg.active && !ts.reg.active[k].local;
    }
  }

  lemma OpKeepsOrigins(e: Env, ts: TaskSide, t: nat, op: Op)
    requires RegistryOK(e.cfg, e.gate, ts) && OriginsOK(e.cfg, e.gate, ts)
    requires t in ts.threads && OpEnabled(ts.threads[t].phase, op)
    ensures OriginsOK(e.cfg, e.gate, ApplyOp(e, ts, t, op))
  {
    var th := ts.threads[t];
    var views := Views(ts.threads);
    assert ThreadOK(e.cfg, e.gate, ts.reg, t, views[t]);
    OpKeepsRan(e, ts, t, op);
    OpKeepsStops(e, ts.reg, t, th, op, ts.requests, ts.claims);
    if Inserts(e, ts.reg, th, op) {
      assert TraceOK(th);
      forall k | k in ts.reg.active && ts.reg.active[k].local ensures ts.reg.active[k].id != t {
        assert EntryOK(e.gate, ts.reg, views, ts.cancellers.Keys, k, ts.reg.active[k]);
      }
      InsertKeepsSources(ts.reg, th.key, t, ts.requests, ts.claims, Mark(|ts.completions|, |ts.requests|));
      InsertKeepsStops(e.cfg, e.gate, ts.threads, ts.requests, ts.claims, t, Advance(e, ts.reg, t, th, op), Mark(|ts.completions|, |ts.requests|));
    } else {
      OpKeepsSources(e, ts.reg, t, th, op, ts.requests, ts.claims);
    }
  }

  lemma InsertKeepsStops(cfg: Config, gate: Gate, threads: map<nat, TaskThread>, requests: seq<TaskExecution>, claims: Marks, t: nat, th: TaskThread, mark: Mark)
    requires AllStopsOK(cfg, gate, threads, requests, claims)
    requires th.trace == Start
    ensures AllStopsOK(cfg, gate, threads[t := th], requests, claims[t := mark])
  {
    var threads', claims' := threads[t := th], claims[t := mark];
    forall i | i in threads' ensures StopsOK(cfg, gate, requests, claims', i, threads'[i]) {
      if i != t {
        assert StopsOK(cfg, gate, requests, claims, i, threads[i]);
      }
    }
  }

  lemma CancelRequestKeepsOrigins(cfg: Config, gate: Gate, ts: TaskSide, key: TaskExecution)
    requires OriginsOK(cfg, gate, ts) && Tracks(ts.reg.completed, ts.completions)
    ensures OriginsOK(cfg, gate, ApplyCancelRequest(ts, key))
  {
    var ts' := ApplyCancelRequest(ts, key);
    RequestKeepsSources(ts.reg, key, ts.next, ts.requests, ts.claims);
    forall i | i in ts.threads ensures StopsOK(cfg, gate, ts'.requests, ts.claims, i, ts.threads[i]) {
      assert StopsOK(cfg, gate, ts.requests, ts.claims, i, ts.threads[i]);
      if SeenUser(ts.threads[i].trace) {
        AskedSinceGrows(ts.requests, ts'.requests, ts.threads[i].key, ts.claims[i].requests);
      }
    }
    PlaceholderRan(ts.reg, Views(ts.threads), ts.completions, ts.cancelCalls, key, ts.next);
  }

  /** A placeholder is made only for an execution that ran. */
  lemma PlaceholderRan(reg: Registry, views: map<nat, View>, completions: seq<TaskExecution>, calls: seq<Ticket>, key: TaskExecution, newId: nat)
    requires RanOK(reg, views, completions, calls) && Tracks(reg.completed, completions)
    ensures RanOK(RequestCancellation(reg, key, newId), views, completions, calls)
  {
    if key in reg.completed.entries {
      assert key in completions;
    }
  }

  lemma CancelMoveKeepsOrigins(cfg: Config, gate: Gate, ts: TaskSide, c: Ticket, m: CancelMove)
    requires RegistryOK(cfg, gate, ts) && OriginsOK(cfg, gate, ts)
    requires c in ts.cancellers && CancelMoveEnabled(gate, ts, c, m)
    ensures OriginsOK(cfg, gate, ApplyCancelMove(ts, c, m))
  {
    var views := Views(ts.threads);
    if m.Begin? || m.Record? {
      CancellerRan(cfg, gate, ts.reg, views, ts.cancellers, ts.completions, ts.cancelCalls, c);
    }
    if m.Record? {
      CompletionRan(ts.reg, views, ts.completions, ts.cancelCalls, c.key, AcceptCancellation(ts.reg, c.key));
    }
  }

  /** Every task step keeps the origins. */
  lemma StepKeepsOrigins(e: Env, ts: TaskSide, step: TaskStep)
    requires RegistryOK(e.cfg, e.gate, ts) && OriginsOK(e.cfg, e.gate, ts) && Enabled(e, ts, step)
    requires Tracks(ts.reg.completed, ts.completions)
    ensures OriginsOK(e.cfg, e.gate, Apply(e, ts, step))
  {
    match step
    case Receive(key) =>
      var th := TaskThread(key, Received, Start);
      assert ts.next !in Views(ts.threads);
      ViewsUpdate(ts.threads, ts.next, th);
      ThreadMoveKeepsRan(ts.reg, Views(ts.threads), ts.completions, ts.cancelCalls, ts.next, ViewOf(th));
    case Thread(t, op) => OpKeepsOrigins(e, ts, t, op);
    case CancelRequest(key) => CancelRequestKeepsOrigins(e.cfg, e.gate, ts, key);
    case MoveCanceller(c, m) => CancelMoveKeepsOrigins(e.cfg, e.gate, ts, c, m);
    case PropagateContext(id) =>
  }

  lemma StopKeepsOrigins(cfg: Config, gate: Gate, ts: TaskSide)
    requires OriginsOK(cfg, gate, ts)
    ensures OriginsOK(cfg, gate.(shuttingDown := true), ApplyStop(cfg, ts))
  {
    var gate' := gate.(shuttingDown := true);
    forall i | i in ts.threads ensures StopsOK(cfg, gate', ts.requests, ts.claims, i, ts.threads[i]) {
      assert StopsOK(cfg, gate, ts.requests, ts.claims, i, ts.threads[i]);
    }
  }
}
