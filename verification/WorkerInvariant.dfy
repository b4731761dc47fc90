/** What every step of the task lifecycle keeps. */
module WorkerInvariant {
  import opened ReplayCache
  import opened WorkerState
  import opened WorkerProtocol

  // ---------- one thread on its own ----------

  const CALLED := Then(Then(Start, ClaimSent), ExecuteCalled)

  predicate ReturnedTrace(h: History, o: Outcome) {
    h.Then? && h.before == CALLED && h.last.ExecuteReturned? && h.last.outcome == o
  }

  /** The failure was classified: no interruption had come, and a user's cancellation that
      had come is still there. */
  predicate LookedTrace(h: History) {
    && h.Then? && h.last.Looked? && !h.last.stop.ObservationStopped?
    && ReturnedTrace(h.before, Errored) && !h.before.last.stop.ObservationStopped?
    && (h.before.last.stop.UserStopped? ==> h.last.stop.UserStopped?)
  }

  predicate ReadTrace(h: History) {
    && h.Then? && h.last.SawSource? && LookedTrace(h.before)
    && (h.before.last.stop.UserStopped? ==> h.last.user)
  }

  predicate SourceTrace(h: History) {
    && h.Then? && h.last.SawSource? && ReadTrace(h.before)
    && (h.before.last.user ==> h.last.user)
  }

  /** The failure is about to be reported, and `user` says whether as a cancellation. */
  predicate DecidedTrace(h: History, user: bool) {
    || (SourceTrace(h) && h.last.user == user)
    || (ReadTrace(h) && !h.last.user && !user)
  }

  predicate InterruptedTrace(h: History) {
    && h.Then? && h.last == Interrupted(ObservationStopped)
    && ReturnedTrace(h.before, Errored) && !h.before.last.stop.UserStopped?
  }

  /** The complete history of a claimed execution: one claim, one backend call, and
      then at most one report, which the outcome and the stops seen decide. */
  predicate FinalTrace(h: History) {
    || ReturnedTrace(h, Spawned)
    || InterruptedTrace(h)
    || (h.Then? && ReturnedTrace(h.before, Completed) && h.last == ReportSent(ReportCompleted))
    || (h.Then? && DecidedTrace(h.before, true) && h.last == ReportSent(ReportCancelled))
    || (h.Then? && DecidedTrace(h.before, false) && h.last == ReportSent(ReportFailed))
  }

  predicate EndsInterrupted(h: History) {
    h.Then? && h.last.Interrupted?
  }

  predicate TraceOK(th: TaskThread) {
    match th.phase
    case Rejected => th.trace == Then(Start, RejectSent)
    case Claimed => th.trace == Then(Start, ClaimSent)
    case Running => th.trace == CALLED
    case Returned(o) => ReturnedTrace(th.trace, o)
    case NotInterrupted => LookedTrace(th.trace)
    case CancelSeen => ReadTrace(th.trace)
    case Sending(ReportCompleted) => ReturnedTrace(th.trace, Completed)
    case Sending(ReportCancelled) => DecidedTrace(th.trace, true)
    case Sending(ReportFailed) => DecidedTrace(th.trace, false)
    case Ended(i) => FinalTrace(th.trace) && (i <==> EndsInterrupted(th.trace))
    case ContextEnded(i) => FinalTrace(th.trace) && (i <==> EndsInterrupted(th.trace))
    case Settled | SlotFreed | Signalled | Finished => FinalTrace(th.trace)
    case _ => th.trace == Start
  }

  // ---------- threads, entries and cancellers together ----------

  /** All that the guarded state knows of a thread. */
  datatype View = View(key: TaskExecution, stage: Stage, stop: Stop, interrupted: bool)

  function ViewOf(th: TaskThread): View {
    View(th.key, StageOf(th.phase), RecordedStop(th.trace), InterruptedPhase(th.phase))
  }

  function Views(threads: map<nat, TaskThread>): map<nat, View> {
    map i | i in threads :: ViewOf(threads[i])
  }

  /** The stop that the last event noted. */
  function RecordedStop(h: History): Stop {
    if !h.Then? then NotStopped
    else match h.last
      case ExecuteReturned(_, stop) => stop
      case Looked(stop) => stop
      case SawSource(user) => if user then UserStopped else NotStopped
      case _ => NotStopped
  }

  predicate InterruptedPhase(p: Phase) {
    (p.Ended? && p.interrupted) || (p.ContextEnded? && p.interrupted)
  }

  /** An execution that has not settled owns the entry under its key. */
  predicate OwnsEntry(cfg: Config, gate: Gate, reg: Registry, i: nat, v: View) {
    && v.key in reg.active && reg.active[v.key].id == i && reg.active[v.key].local
    && v.key !in reg.completed.entries
    && SeesStop(cfg, gate, reg, i, v)
  }

  /** A recorded stop is still visible, and the entry and its contexts agree. */
  predicate SeesStop(cfg: Config, gate: Gate, reg: Registry, t: nat, v: View) {
    && v.key in reg.active && t in reg.contexts
    && ContextMatches(cfg, gate, reg.active[v.key], reg.contexts[t])
    && (v.stop.UserStopped? ==> reg.active[v.key].source.UserSource?)
    && (v.stop.ObservationStopped? ==> reg.contexts[t].observation.InterruptCause?)
  }

  predicate ContextMatches(cfg: Config, gate: Gate, task: ActiveTask, ctx: TaskContext) {
    && (task.source.UserSource? ==> ctx.cancelled && ctx.observation.CancelCause?)
    && (task.source.ShutdownSource? ==> gate.shuttingDown && !cfg.preserves)
    && (ctx.observation.InterruptCause? ==> gate.shuttingDown && cfg.preserves && !task.source.UserSource?)
  }

  predicate ThreadOK(cfg: Config, gate: Gate, reg: Registry, i: nat, v: View) {
    && (v.interrupted ==> gate.shuttingDown)
    && match v.stage
       case Pending => reg.doneCloses[i] == 0 && i !in reg.contexts
       case Holding => reg.doneCloses[i] == 0 && OwnsEntry(cfg, gate, reg, i, v)
       case Released => reg.doneCloses[i] == 1
  }

  predicate Stands(views: map<nat, View>, i: nat, stage: Stage) {
    i in views && views[i].stage == stage
  }

  predicate EntryOK(gate: Gate, reg: Registry, views: map<nat, View>, tickets: set<Ticket>, k: TaskExecution, task: ActiveTask) {
    && (task.local ==>
          && task.id in views && views[task.id].key == k
          && !views[task.id].stage.Pending?
          && (views[task.id].stage.Released? ==> task.spawned || task.source.UserSource?))
    && (!task.local ==> task.id !in views && task.id !in reg.contexts && reg.doneCloses[task.id] == 1)
    && (task.source.UserSource? <==> task.cancelling)
    && (task.source.ShutdownSource? ==> gate.shuttingDown)
    && (task.cancelling <==> Ticket(task.id, k) in tickets)
  }

  predicate CancellerOK(reg: Registry, views: map<nat, View>, c: Ticket, p: CancelPhase) {
    && !Stands(views, c.id, Pending)
    && (!p.Exited? ==> c.key in reg.active && reg.active[c.key].id == c.id)
    && (!p.WaitingDone? && !p.Exited? ==> reg.doneCloses[c.id] == 1)
  }

  /** No done channel is closed twice, and the backend is asked to cancel an execution
      only after its done channel closed. */
  ghost predicate ClosesOK(reg: Registry, calls: seq<Ticket>) {
    && (forall i: nat :: reg.doneCloses[i] <= 1)
    && (forall n :: 0 <= n < |calls| ==> reg.doneCloses[calls[n].id] == 1)
  }

  /** Every identifier in use is below `next`. */
  ghost predicate IdsOK(reg: Registry, views: map<nat, View>, tickets: set<Ticket>, next: nat) {
    && (forall i :: i in views ==> i < next)
    && (forall k :: k in reg.active ==> reg.active[k].id < next)
    && (forall c :: c in tickets ==> c.id < next)
    && (forall i :: i in reg.contexts ==> i < next)
    && (forall i: nat :: i >= next ==> reg.doneCloses[i] == 0)
  }

  ghost predicate TracesOK(threads: map<nat, TaskThread>) {
    forall i :: i in threads ==> TraceOK(threads[i])
  }

  ghost predicate ThreadsOK(cfg: Config, gate: Gate, reg: Registry, views: map<nat, View>) {
    forall i :: i in views ==> ThreadOK(cfg, gate, reg, i, views[i])
  }

  ghost predicate EntriesOK(gate: Gate, reg: Registry, views: map<nat, View>, tickets: set<Ticket>) {
    forall k :: k in reg.active ==> EntryOK(gate, reg, views, tickets, k, reg.active[k])
  }

  ghost predicate CancellersOK(reg: Registry, views: map<nat, View>, cancellers: map<Ticket, CancelPhase>) {
    forall c :: c in cancellers ==> CancellerOK(reg, views, c, cancellers[c])
  }

  /** The guarded state, the threads that act on it and the cancellers agree. */
  ghost predicate Agree(cfg: Config, gate: Gate, reg: Registry, views: map<nat, View>, cancellers: map<Ticket, CancelPhase>) {
    && ThreadsOK(cfg, gate, reg, views)
    && EntriesOK(gate, reg, views, cancellers.Keys)
    && CancellersOK(reg, views, cancellers)
  }

  ghost predicate RegistryOK(cfg: Config, gate: Gate, ts: TaskSide) {
    && TracesOK(ts.threads)
    && Agree(cfg, gate, ts.reg, Views(ts.threads), ts.cancellers)
    && ClosesOK(ts.reg, ts.cancelCalls)
    && IdsOK(ts.reg, Views(ts.threads), ts.cancellers.Keys, ts.next)
  }

  // ---------- preservation: the guarded state ----------

  /** A thread that keeps its stage disturbs nobody. */
  lemma AgreeSameStage(cfg: Config, gate: Gate, reg: Registry, views: map<nat, View>, cancellers: map<Ticket, CancelPhase>, t: nat, v: View)
    requires Agree(cfg, gate, reg, views, cancellers) && t in views
    requires v.key == views[t].key && v.stage == views[t].stage && ThreadOK(cfg, gate, reg, t, v)
    ensures Agree(cfg, gate, reg, views[t := v], cancellers)
  {
    var views' := views[t := v];
    forall k | k in reg.active ensures EntryOK(gate, reg, views', cancellers.Keys, k, reg.active[k]) {
      assert EntryOK(gate, reg, views, cancellers.Keys, k, reg.active[k]);
    }
    forall c | c in cancellers ensures CancellerOK(reg, views', c, cancellers[c]) {
      assert CancellerOK(reg, views, c, cancellers[c]);
    }
  }

  /** Inserting an entry makes its thread the owner and disturbs no other. */
  lemma AgreeInsert(cfg: Config, gate: Gate, reg: Registry, views: map<nat, View>, cancellers: map<Ticket, CancelPhase>, t: nat, v: View)
    requires Agree(cfg, gate, reg, views, cancellers) && t in views
    requires v.key == views[t].key && views[t].stage.Pending? && !Known(reg, v.key)
    requires v.stage.Holding? && v.stop.NotStopped? && !v.interrupted
    ensures Agree(cfg, gate, Insert(reg, v.key, t), views[t := v], cancellers)
  {
    var views', reg' := views[t := v], Insert(reg, v.key, t);
    assert ThreadOK(cfg, gate, reg, t, views[t]);
    forall i | i in views' ensures ThreadOK(cfg, gate, reg', i, views'[i]) {
      assert ThreadOK(cfg, gate, reg, i, views[i]);
    }
    forall k | k in reg'.active ensures EntryOK(gate, reg', views', cancellers.Keys, k, reg'.active[k]) {
      if k in reg.active {
        assert EntryOK(gate, reg, views, cancellers.Keys, k, reg.active[k]);
      } else {
        assert Ticket(t, k) in cancellers ==> CancellerOK(reg, views, Ticket(t, k), cancellers[Ticket(t, k)]);
      }
    }
    forall c | c in cancellers ensures CancellerOK(reg', views', c, cancellers[c]) {
      assert CancellerOK(reg, views, c, cancellers[c]);
    }
  }

  lemma AgreeSpawn(cfg: Config, gate: Gate, reg: Registry, views: map<nat, View>, cancellers: map<Ticket, CancelPhase>, key: TaskExecution)
    requires Agree(cfg, gate, reg, views, cancellers)
    ensures Agree(cfg, gate, MarkSpawned(reg, key), views, cancellers)
  {
    var reg' := MarkSpawned(reg, key);
    forall i | i in views ensures ThreadOK(cfg, gate, reg', i, views[i]) {
      assert ThreadOK(cfg, gate, reg, i, views[i]);
    }
    forall k | k in reg'.active ensures EntryOK(gate, reg', views, cancellers.Keys, k, reg'.active[k]) {
      assert EntryOK(gate, reg, views, cancellers.Keys, k, reg.active[k]);
    }
    forall c | c in cancellers ensures CancellerOK(reg', views, c, cancellers[c]) {
      assert CancellerOK(reg, views, c, cancellers[c]);
    }
  }

  /** Cancelling a task context never turns a visible stop into another. */
  lemma AgreeContext(cfg: Config, gate: Gate, reg: Registry, views: map<nat, View>, cancellers: map<Ticket, CancelPhase>, id: nat)
    requires Agree(cfg, gate, reg, views, cancellers)
    ensures Agree(cfg, gate, EndContext(reg, id), views, cancellers)
  {
    var reg' := EndContext(reg, id);
    forall i | i in views ensures ThreadOK(cfg, gate, reg', i, views[i]) {
      assert ThreadOK(cfg, gate, reg, i, views[i]);
    }
    forall k | k in reg'.active ensures EntryOK(gate, reg', views, cancellers.Keys, k, reg'.active[k]) {
      assert EntryOK(gate, reg, views, cancellers.Keys, k, reg.active[k]);
    }
    forall c | c in cancellers ensures CancellerOK(reg', views, c, cancellers[c]) {
      assert CancellerOK(reg, views, c, cancellers[c]);
    }
  }

  /** What settling the entry of `key` changes. */
  lemma SettleFacts(r: Registry, key: TaskExecution, interrupted: bool)
    requires key in r.active
    ensures var r' := Settle(r, key, interrupted);
            var kept := r.active[key].spawned || r.active[key].source.UserSource?;
            && r'.contexts == r.contexts && r'.stopped == r.stopped
            && r'.doneCloses == r.doneCloses + multiset{r.active[key].id}
            && r'.active == (if kept then r.active else r.active - {key})
            && (forall k :: k in r'.completed.entries ==> k in r.completed.entries || k == key)
  {
  }

  /** Settling closes the thread's own done channel, once, and removes no entry but its own. */
  lemma AgreeSettle(cfg: Config, gate: Gate, reg: Registry, views: map<nat, View>, cancellers: map<Ticket, CancelPhase>, t: nat, v: View, interrupted: bool)
    requires Agree(cfg, gate, reg, views, cancellers) && t in views
    requires v.key == views[t].key && views[t].stage.Holding? && v.stage.Released? && !v.interrupted
    ensures Agree(cfg, gate, Settle(reg, v.key, interrupted), views[t := v], cancellers)
  {
    var views', reg' := views[t := v], Settle(reg, v.key, interrupted);
    assert ThreadOK(cfg, gate, reg, t, views[t]);
    SettleFacts(reg, v.key, interrupted);
    forall i | i in views' ensures ThreadOK(cfg, gate, reg', i, views'[i]) {
      assert ThreadOK(cfg, gate, reg, i, views[i]);
    }
    forall k | k in reg'.active ensures EntryOK(gate, reg', views', cancellers.Keys, k, reg'.active[k]) {
      assert EntryOK(gate, reg, views, cancellers.Keys, k, reg.active[k]);
    }
    forall c | c in cancellers ensures CancellerOK(reg', views', c, cancellers[c]) {
      assert CancellerOK(reg, views, c, cancellers[c]);
      if c.key == v.key && !cancellers[c].Exited? {
        assert EntryOK(gate, reg, views, cancellers.Keys, v.key, reg.active[v.key]);
        assert c == Ticket(t, v.key);
      }
    }
  }

  /** A placeholder for a completed execution disturbs nobody. */
  lemma AgreePlaceholder(cfg: Config, gate: Gate, reg: Registry, views: map<nat, View>, cancellers: map<Ticket, CancelPhase>, key: TaskExecution, newId: nat)
    requires Agree(cfg, gate, reg, views, cancellers)
    requires newId !in views && newId !in reg.contexts && reg.doneCloses[newId] == 0
    requires forall c :: c in cancellers ==> c.id != newId
    ensures Agree(cfg, gate, Placeholder(reg, key, newId), views, cancellers)
  {
    var reg' := Placeholder(reg, key, newId);
    forall i | i in views ensures ThreadOK(cfg, gate, reg', i, views[i]) {
      assert ThreadOK(cfg, gate, reg, i, views[i]);
    }
    forall k | k in reg'.active ensures EntryOK(gate, reg', views, cancellers.Keys, k, reg'.active[k]) {
      if k in reg.active {
        assert EntryOK(gate, reg, views, cancellers.Keys, k, reg.active[k]);
      }
    }
    forall c | c in cancellers ensures CancellerOK(reg', views, c, cancellers[c]) {
      assert CancellerOK(reg, views, c, cancellers[c]);
    }
  }

  /** The cancellers after starting one for every cancellable entry of `keys`. */
  function WithStarted(reg: Registry, cancellers: map<Ticket, CancelPhase>, keys: set<TaskExecution>): map<Ticket, CancelPhase> {
    cancellers + (map c | c in Tickets(reg, Cancellable(reg, keys)) :: WaitingDone)
  }

  /** A started canceller is the first one its entry ever had. */
  lemma StartsAreNew(cfg: Config, gate: Gate, reg: Registry, views: map<nat, View>, cancellers: map<Ticket, CancelPhase>, keys: set<TaskExecution>, c: Ticket)
    requires Agree(cfg, gate, reg, views, cancellers)
    requires c in Tickets(reg, Cancellable(reg, keys))
    ensures c.key in keys && c.key in reg.active && reg.active[c.key].id == c.id && c !in cancellers
    ensures !Stands(views, c.id, Pending)
  {
    assert EntryOK(gate, reg, views, cancellers.Keys, c.key, reg.active[c.key]);
  }

  lemma AgreeStart(cfg: Config, gate: Gate, reg: Registry, views: map<nat, View>, cancellers: map<Ticket, CancelPhase>, keys: set<TaskExecution>)
    requires Agree(cfg, gate, reg, views, cancellers) && !gate.shuttingDown
    ensures Agree(cfg, gate, StartCancellations(reg, keys), views, WithStarted(reg, cancellers, keys))
  {
    var reg', cs' := StartCancellations(reg, keys), WithStarted(reg, cancellers, keys);
    var started := Cancellable(reg, keys);
    forall i | i in views ensures ThreadOK(cfg, gate, reg', i, views[i]) {
      assert ThreadOK(cfg, gate, reg, i, views[i]);
      if views[i].stage.Holding? {
        StartContexts(cfg, gate, reg, views, cancellers, keys, i);
      }
    }
    forall k | k in reg'.active ensures EntryOK(gate, reg', views, cs'.Keys, k, reg'.active[k]) {
      assert EntryOK(gate, reg, views, cancellers.Keys, k, reg.active[k]);
      assert Ticket(reg.active[k].id, k) in Tickets(reg, started) <==> k in started;
    }
    forall c | c in cs' ensures CancellerOK(reg', views, c, cs'[c]) {
      if c in Tickets(reg, started) {
        StartsAreNew(cfg, gate, reg, views, cancellers, keys, c);
      } else {
        assert CancellerOK(reg, views, c, cancellers[c]);
      }
    }
  }

  /** Only the contexts of the cancelled entries change. */
  lemma StartContexts(cfg: Config, gate: Gate, reg: Registry, views: map<nat, View>, cancellers: map<Ticket, CancelPhase>, keys: set<TaskExecution>, i: nat)
    requires Agree(cfg, gate, reg, views, cancellers) && Stands(views, i, Holding)
    ensures i in reg.contexts && views[i].key in reg.active
    ensures var reg' := StartCancellations(reg, keys);
            reg'.contexts[i] == if views[i].key in Cancellable(reg, keys) then reg.contexts[i].Cancel() else reg.contexts[i]
  {
    assert ThreadOK(cfg, gate, reg, i, views[i]);
    var started := Cancellable(reg, keys);
    if i in Ids(reg, started) {
      var k :| k in started && reg.active[k].id == i;
      assert EntryOK(gate, reg, views, cancellers.Keys, k, reg.active[k]);
      assert k == views[i].key;
    }
  }

  /** An accepted cancellation removes the entry it was started for and no other. */
  lemma AgreeAccept(cfg: Config, gate: Gate, reg: Registry, views: map<nat, View>, cancellers: map<Ticket, CancelPhase>, c: Ticket)
    requires Agree(cfg, gate, reg, views, cancellers)
    requires c in cancellers && cancellers[c].CallAccepted?
    ensures Agree(cfg, gate, AcceptCancellation(reg, c.key), views, cancellers[c := Exited(true)])
    ensures c.key in reg.active && reg.active[c.key].id == c.id
  {
    var reg', cs' := AcceptCancellation(reg, c.key), cancellers[c := Exited(true)];
    assert CancellerOK(reg, views, c, cancellers[c]);
    forall i | i in views ensures ThreadOK(cfg, gate, reg', i, views[i]) {
      assert ThreadOK(cfg, gate, reg, i, views[i]);
      assert views[i].stage.Holding? ==> views[i].key != c.key;
    }
    assert cs'.Keys == cancellers.Keys;
    forall k | k in reg'.active ensures EntryOK(gate, reg', views, cs'.Keys, k, reg'.active[k]) {
      assert EntryOK(gate, reg, views, cancellers.Keys, k, reg.active[k]);
    }
    forall d | d in cs' ensures CancellerOK(reg', views, d, cs'[d]) {
      assert CancellerOK(reg, views, d, cancellers[d]);
      if d.key == c.key && !cancellers[d].Exited? {
        assert d == c;
      }
    }
  }

  /** A canceller that moves without touching the entries. */
  lemma AgreeCancelMove(cfg: Config, gate: Gate, reg: Registry, views: map<nat, View>, cancellers: map<Ticket, CancelPhase>, c: Ticket, p: CancelPhase)
    requires Agree(cfg, gate, reg, views, cancellers)
    requires c in cancellers && !cancellers[c].Exited?
    requires cancellers[c].WaitingDone? && !p.Exited? ==> reg.doneCloses[c.id] == 1
    ensures Agree(cfg, gate, reg, views, cancellers[c := p])
  {
    assert CancellerOK(reg, views, c, cancellers[c]);
    assert cancellers[c := p].Keys == cancellers.Keys;
  }

  /** Shutdown cancels or interrupts every entry; a user's cancellation keeps its cause. */
  lemma AgreeStop(cfg: Config, gate: Gate, reg: Registry, views: map<nat, View>, cancellers: map<Ticket, CancelPhase>)
    requires Agree(cfg, gate, reg, views, cancellers)
    ensures Agree(cfg, gate.(shuttingDown := true), StopAll(reg, cfg.preserves), views, cancellers)
  {
    var gate', reg' := gate.(shuttingDown := true), StopAll(reg, cfg.preserves);
    forall i | i in views ensures ThreadOK(cfg, gate', reg', i, views[i]) {
      assert ThreadOK(cfg, gate, reg, i, views[i]);
      if views[i].stage.Holding? {
        assert views[i].key in LocalKeys(reg);
        assert i in Ids(reg, LocalKeys(reg));
      }
    }
    forall k | k in reg'.active ensures EntryOK(gate', reg', views, cancellers.Keys, k, reg'.active[k]) {
      assert EntryOK(gate, reg, views, cancellers.Keys, k, reg.active[k]);
    }
    forall c | c in cancellers ensures CancellerOK(reg', views, c, cancellers[c]) {
      assert CancellerOK(reg, views, c, cancellers[c]);
    }
  }
}
