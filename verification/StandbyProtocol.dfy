/** Standby sandboxes as a step relation: admission, the local runner, destroy
    requests, and the backend's exit watcher, all interleaved. */
module StandbyProtocol {
  import opened Sequences
  import opened ReplayCache
  import opened WorkerState
  import WorkerProtocol

  type Config = WorkerProtocol.Config
  type Gate = WorkerProtocol.Gate

  /** Program counters of `handlePrewarmCreate` after admission and of `runStandby`. */
  datatype StandbyPhase =
    | Admitted | Announced | Running | Returned | Reporting
    | ExitPending(entry: nat)
    | Leaving | UnitReturned | EntryDeleted | DoneClosed | Finished

  datatype SandboxID = SandboxID(text: string)

  datatype StandbyThread = StandbyThread(id: SandboxID, phase: StandbyPhase)

  /** Program counters of one report by the exit watcher. */
  datatype WatchPhase = Noticed | NotLocal | WatchPending(entry: nat) | WatchDone

  datatype Watcher = Watcher(id: SandboxID, phase: WatchPhase)

  /** `history` lists every insertion ever made into the exit cache, `reporters` the
      runner or watcher that made each of them, and `sent` the insertions whose exit
      message was attempted; `admitted` says how many exits were recorded when each runner
      was admitted. */
  datatype StandbySide = StandbySide(
    sandboxes: map<SandboxID, nat>,
    causes: map<nat, Cause>,
    sources: map<nat, Source>,
    exits: Cache<SandboxID, ()>,
    threads: map<nat, StandbyThread>,
    watchers: map<nat, Watcher>,
    next: nat,
    history: seq<SandboxID>,
    reporters: seq<nat>,
    sent: seq<nat>,
    admitted: map<nat, nat>)

  datatype StandbyOp =
    | SendCreated | CallBackend | BackendReturns | Decide | RecordExit | SendExit
    | ReturnUnit | DeleteEntry | CloseDone | LeaveWaitGroup

  datatype WatchOp = CheckLocal | RecordWatched | SendWatched

  datatype StandbyStep =
    | Create(id: SandboxID)
    | Run(t: nat, op: StandbyOp)
    | Destroy(id: SandboxID)
    | Notice(id: SandboxID)
    | Watch(w: nat, watchOp: WatchOp)
    | PropagateCause(t: nat)

  predicate HoldsUnit(p: StandbyPhase) {
    p.Admitted? || p.Announced? || p.Running? || p.Returned? || p.Reporting? || p.ExitPending? || p.Leaving?
  }

  /** The entry is in `standbys`. */
  predicate IsListed(p: StandbyPhase) {
    HoldsUnit(p) || p.UnitReturned?
  }

  predicate HoldsGroup(p: StandbyPhase) {
    !p.Finished?
  }

  predicate StandbyKnown(ss: StandbySide, id: SandboxID) {
    id in ss.sandboxes || id in ss.exits.entries
  }

  predicate RunEnabled(p: StandbyPhase, op: StandbyOp) {
    match op
    case SendCreated => p.Admitted?
    case CallBackend => p.Announced?
    case BackendReturns => p.Running?
    case Decide => p.Returned?
    case RecordExit => p.Reporting?
    case SendExit => p.ExitPending?
    case ReturnUnit => p.Leaving?
    case DeleteEntry => p.UnitReturned?
    case CloseDone => p.EntryDeleted?
    case LeaveWaitGroup => p.DoneClosed?
  }

  predicate WatchEnabled(p: WatchPhase, op: WatchOp) {
    match op
    case CheckLocal => p.Noticed?
    case RecordWatched => p.NotLocal?
    case SendWatched => p.WatchPending?
  }

  /** `free` says whether the semaphore that pays for standbys has a free unit. */
  predicate Admits(cfg: Config, gate: Gate, free: bool, ss: StandbySide, id: SandboxID) {
    !StandbyKnown(ss, id) && !gate.Closed() && !cfg.oneShot && cfg.supportsStandbys && free
  }

  predicate StandbyEnabled(cfg: Config, gate: Gate, free: bool, ss: StandbySide, step: StandbyStep) {
    match step
    // A duplicate is ignored and a refused request is only answered; neither changes the state.
    case Create(id) => Admits(cfg, gate, free, ss, id)
    case Run(t, op) => t in ss.threads && RunEnabled(ss.threads[t].phase, op)
    case Destroy(_) => true
    case Notice(_) => true
    case Watch(w, op) => w in ss.watchers && WatchEnabled(ss.watchers[w].phase, op)
    case PropagateCause(t) => t in ss.causes && gate.ctxDone && !cfg.preserves
  }

  function Moved(threads: map<nat, StandbyThread>, t: nat, p: StandbyPhase): map<nat, StandbyThread>
    requires t in threads
  {
    threads[t := threads[t].(phase := p)]
  }

  function Ended(causes: map<nat, Cause>, t: nat, c: Cause): map<nat, Cause> {
    if t in causes then causes[t := FirstCause(causes[t], c)] else causes
  }

  function CauseOf(ss: StandbySide, t: nat): Cause {
    if t in ss.causes then ss.causes[t] else Live
  }

  /** Where an operation leaves the runner's program counter. */
  function NextRunPhase(ss: StandbySide, t: nat, op: StandbyOp): StandbyPhase
    requires t in ss.threads && RunEnabled(ss.threads[t].phase, op)
  {
    match op
    case SendCreated => Announced
    case CallBackend => Running
    case BackendReturns => Returned
    // An interrupted observation leaves the sandbox running and reports nothing.
    case Decide => if CauseOf(ss, t).InterruptCause? then Leaving else Reporting
    case RecordExit => if ss.threads[t].id in ss.exits.entries then Leaving else ExitPending(|ss.history|)
    case SendExit => Leaving
    case ReturnUnit => UnitReturned
    case DeleteEntry => EntryDeleted
    case CloseDone => DoneClosed
    case LeaveWaitGroup => Finished
  }

  /** The operation adds a record of its own to the exit cache. */
  predicate RecordsExit(ss: StandbySide, id: SandboxID, recording: bool) {
    recording && id !in ss.exits.entries
  }

  function ApplyRun(ss: StandbySide, t: nat, op: StandbyOp): StandbySide
    requires t in ss.threads && RunEnabled(ss.threads[t].phase, op)
  {
    var th := ss.threads[t];
    var records := RecordsExit(ss, th.id, op.RecordExit?);
    ss.(threads := Moved(ss.threads, t, NextRunPhase(ss, t, op)),
    sandboxes := if op.DeleteEntry? then ss.sandboxes - {th.id} else ss.sandboxes,
    causes := if op.ReturnUnit? then Ended(ss.causes, t, CancelCause) else ss.causes,
    exits := if records then Put(ss.exits, th.id, ()) else ss.exits,
    history := if records then ss.history + [th.id] else ss.history,
    reporters := if records then ss.reporters + [t] else ss.reporters,
    sent := if op.SendExit? then ss.sent + [th.phase.entry] else ss.sent)
  }

  function NextWatchPhase(gate: Gate, ss: StandbySide, w: nat, op: WatchOp): WatchPhase
    requires w in ss.watchers && WatchEnabled(ss.watchers[w].phase, op)
  {
    match op
    case CheckLocal => if ss.watchers[w].id in ss.sandboxes || gate.shuttingDown then WatchDone else NotLocal
    case RecordWatched => if ss.watchers[w].id in ss.exits.entries then WatchDone else WatchPending(|ss.history|)
    case SendWatched => WatchDone
  }

  function ApplyWatch(gate: Gate, ss: StandbySide, w: nat, op: WatchOp): StandbySide
    requires w in ss.watchers && WatchEnabled(ss.watchers[w].phase, op)
  {
    var watcher := ss.watchers[w];
    var records := RecordsExit(ss, watcher.id, op.RecordWatched?);
    ss.(watchers := ss.watchers[w := watcher.(phase := NextWatchPhase(gate, ss, w, op))],
    exits := if records then Put(ss.exits, watcher.id, ()) else ss.exits,
    history := if records then ss.history + [watcher.id] else ss.history,
    reporters := if records then ss.reporters + [w] else ss.reporters,
    sent := if op.SendWatched? then ss.sent + [watcher.phase.entry] else ss.sent)
  }

  /** A destroy request sets the source of a listed standby if it is unset. */
  function WithSource(sources: map<nat, Source>, t: nat): map<nat, Source> {
    if t in sources && !sources[t].NoSource? then sources else sources[t := UserSource]
  }

  function ApplyDestroy(ss: StandbySide, id: SandboxID): StandbySide {
    if id in ss.sandboxes then
      var t := ss.sandboxes[id];
      ss.(sources := WithSource(ss.sources, t), causes := Ended(ss.causes, t, CancelCause))
    else
      ss
  }

  function ApplyStandby(cfg: Config, gate: Gate, free: bool, ss: StandbySide, step: StandbyStep): StandbySide
    requires StandbyEnabled(cfg, gate, free, ss, step)
  {
    match step
    case Create(id) =>
      ss.(sandboxes := ss.sandboxes[id := ss.next],
      causes := ss.causes[ss.next := Live],
      threads := ss.threads[ss.next := StandbyThread(id, Admitted)],
      admitted := ss.admitted[ss.next := |ss.history|],
      next := ss.next + 1)
    case Run(t, op) => ApplyRun(ss, t, op)
    case Destroy(id) => ApplyDestroy(ss, id)
    case Notice(id) => ss.(watchers := ss.watchers[ss.next := Watcher(id, Noticed)], next := ss.next + 1)
    case Watch(w, op) => ApplyWatch(gate, ss, w, op)
    case PropagateCause(t) => ss.(causes := Ended(ss.causes, t, CancelCause))
  }

  /** `stopStandbysLocked`. */
  function StopStandbys(cfg: Config, ss: StandbySide): StandbySide {
    var stopped := set id | id in ss.sandboxes :: ss.sandboxes[id];
    ss.(causes := map t | t in ss.causes ::
          if t !in stopped then ss.causes[t]
          else FirstCause(ss.causes[t], if cfg.preserves then InterruptCause else CancelCause),
    sources := if cfg.preserves then ss.sources else
                 map t | t in ss.sources.Keys + stopped ::
                   if t in ss.sources && (t !in stopped || !ss.sources[t].NoSource?) then ss.sources[t] else ShutdownSource)
  }

  function InitStandbys(): StandbySide {
    StandbySide(map[], map[], map[], Empty(), map[], map[], 0, [], [], [], map[])
  }

  // ---------- invariant ----------

  /** Why an admitted sandbox that is no longer listed needs no further report: its exit
      was recorded after the admission, or its observation was interrupted. */
  ghost predicate Accounted(cause: Cause, history: seq<SandboxID>, id: SandboxID, since: nat) {
    InsertedSince(history, id, since) || cause.InterruptCause?
  }

  predicate NeedsAccount(p: StandbyPhase) {
    p.ExitPending? || p.Leaving? || !HoldsUnit(p)
  }

  /** Its ID was not recorded when the runner was admitted, and it is accounted for once it
      has decided about its report. */
  ghost predicate RunnerAccounted(cause: Cause, history: seq<SandboxID>, th: StandbyThread, since: nat) {
    && UnrecordedAt(history, th.id, since)
    && (NeedsAccount(th.phase) ==> Accounted(cause, history, th.id, since))
  }

  ghost predicate RunnersAccounted(causes: map<nat, Cause>, history: seq<SandboxID>, threads: map<nat, StandbyThread>, admitted: map<nat, nat>) {
    forall t :: t in threads ==> t in causes && t in admitted && RunnerAccounted(causes[t], history, threads[t], admitted[t])
  }

  /** A runner that has not deleted its entry is the one listed under its sandbox ID. */
  ghost predicate RunnersListed(sandboxes: map<SandboxID, nat>, threads: map<nat, StandbyThread>) {
    && (forall t :: t in threads && IsListed(threads[t].phase) ==>
          threads[t].id in sandboxes && sandboxes[threads[t].id] == t)
    && (forall id :: id in sandboxes ==>
          sandboxes[id] in threads && threads[sandboxes[id]].id == id && IsListed(threads[sandboxes[id]].phase))
  }

  /** Only the shutdown of a worker that preserves its tasks interrupts an observation. */
  ghost predicate CausesOK(cfg: Config, gate: Gate, causes: map<nat, Cause>) {
    forall t :: t in causes && causes[t].InterruptCause? ==> gate.shuttingDown && cfg.preserves
  }

  /** `t` owns the insertion `n` and has not attempted its message yet. */
  predicate OwnsReport(history: seq<SandboxID>, reporters: seq<nat>, sent: seq<nat>, t: nat, id: SandboxID, n: nat) {
    n < |history| && n < |reporters| && history[n] == id && reporters[n] == t && n !in sent
  }

  /** Every insertion has one reporter, and its message is attempted at most once. */
  ghost predicate LogOK(history: seq<SandboxID>, reporters: seq<nat>, sent: seq<nat>) {
    && |reporters| == |history|
    && (forall i :: 0 <= i < |sent| ==> sent[i] < |history|)
    && NoDuplicates(sent)
  }

  ghost predicate RunnersPending(history: seq<SandboxID>, reporters: seq<nat>, sent: seq<nat>, threads: map<nat, StandbyThread>) {
    forall t :: t in threads && threads[t].phase.ExitPending? ==>
      OwnsReport(history, reporters, sent, t, threads[t].id, threads[t].phase.entry)
  }

  ghost predicate WatchersPending(history: seq<SandboxID>, reporters: seq<nat>, sent: seq<nat>, watchers: map<nat, Watcher>) {
    forall w :: w in watchers && watchers[w].phase.WatchPending? ==>
      OwnsReport(history, reporters, sent, w, watchers[w].id, watchers[w].phase.entry)
  }

  /** The reporter `r` is about to send the message of insertion `n`. */
  predicate AboutToSend(threads: map<nat, StandbyThread>, watchers: map<nat, Watcher>, r: nat, n: nat) {
    || (r in threads && threads[r].phase == ExitPending(n))
    || (r in watchers && watchers[r].phase == WatchPending(n))
  }

  /** The message of every recorded exit was attempted, or its reporter is about to. */
  ghost predicate Delivered(reporters: seq<nat>, sent: seq<nat>, threads: map<nat, StandbyThread>, watchers: map<nat, Watcher>) {
    forall n :: 0 <= n < |reporters| ==> n in sent || AboutToSend(threads, watchers, reporters[n], n)
  }

  ghost predicate NumbersOK(threads: map<nat, StandbyThread>, watchers: map<nat, Watcher>, causes: map<nat, Cause>, next: nat) {
    && (forall t :: t in threads ==> t < next)
    && (forall w :: w in watchers ==> w < next && w !in threads)
    && (forall t :: t in causes <==> t in threads)
  }

  ghost predicate ReportsOK(ss: StandbySide) {
    && LogOK(ss.history, ss.reporters, ss.sent)
    && RunnersPending(ss.history, ss.reporters, ss.sent, ss.threads)
    && WatchersPending(ss.history, ss.reporters, ss.sent, ss.watchers)
    && Delivered(ss.reporters, ss.sent, ss.threads, ss.watchers)
  }

  ghost predicate StructureOK(cfg: Config, gate: Gate, ss: StandbySide) {
    && NumbersOK(ss.threads, ss.watchers, ss.causes, ss.next)
    && RunnersListed(ss.sandboxes, ss.threads)
    && CausesOK(cfg, gate, ss.causes)
  }

  ghost predicate AccountsOK(ss: StandbySide) {
    RunnersAccounted(ss.causes, ss.history, ss.threads, ss.admitted)
  }

  ghost predicate ExitsOK(ss: StandbySide) {
    Tracks(ss.exits, ss.history)
  }

  ghost predicate StandbyOK(cfg: Config, gate: Gate, ss: StandbySide) {
    StructureOK(cfg, gate, ss) && AccountsOK(ss) && ReportsOK(ss) && ExitsOK(ss)
  }

  // ---------- preservation: who is listed ----------

  lemma MoveListed(sandboxes: map<SandboxID, nat>, threads: map<nat, StandbyThread>, t: nat, p: StandbyPhase)
    requires RunnersListed(sandboxes, threads) && t in threads && IsListed(p) == IsListed(threads[t].phase)
    ensures RunnersListed(sandboxes, Moved(threads, t, p))
  {
  }

  /** A runner deletes its own entry and no other. */
  lemma DeleteListed(sandboxes: map<SandboxID, nat>, threads: map<nat, StandbyThread>, t: nat)
    requires RunnersListed(sandboxes, threads) && t in threads && threads[t].phase.UnitReturned?
    ensures RunnersListed(sandboxes - {threads[t].id}, Moved(threads, t, EntryDeleted))
  {
  }

  lemma CreateListed(sandboxes: map<SandboxID, nat>, threads: map<nat, StandbyThread>, t: nat, id: SandboxID)
    requires RunnersListed(sandboxes, threads) && t !in threads && id !in sandboxes
    ensures RunnersListed(sandboxes[id := t], threads[t := StandbyThread(id, Admitted)])
  {
  }

  lemma RunKeepsStructure(cfg: Config, gate: Gate, ss: StandbySide, t: nat, op: StandbyOp)
    requires StructureOK(cfg, gate, ss)
    requires t in ss.threads && RunEnabled(ss.threads[t].phase, op)
    ensures StructureOK(cfg, gate, ApplyRun(ss, t, op))
  {
    var p := NextRunPhase(ss, t, op);
    RunListed(ss, t, op);
    if op.DeleteEntry? {
      DeleteListed(ss.sandboxes, ss.threads, t);
    } else {
      MoveListed(ss.sandboxes, ss.threads, t, p);
    }
    MoveNumbers(ss.threads, ss.watchers, ss.causes, ss.next, t, p);
    EndedCauses(cfg, gate, ss.causes, t);
  }

  lemma RunListed(ss: StandbySide, t: nat, op: StandbyOp)
    requires t in ss.threads && RunEnabled(ss.threads[t].phase, op)
    ensures if op.DeleteEntry? then NextRunPhase(ss, t, op).EntryDeleted?
            else IsListed(NextRunPhase(ss, t, op)) == IsListed(ss.threads[t].phase)
  {
  }

  lemma MoveNumbers(threads: map<nat, StandbyThread>, watchers: map<nat, Watcher>, causes: map<nat, Cause>, next: nat, t: nat, p: StandbyPhase)
    requires NumbersOK(threads, watchers, causes, next) && t in threads
    ensures NumbersOK(Moved(threads, t, p), watchers, causes, next)
    ensures NumbersOK(Moved(threads, t, p), watchers, Ended(causes, t, CancelCause), next)
  {
  }

  lemma EndedCauses(cfg: Config, gate: Gate, causes: map<nat, Cause>, t: nat)
    requires CausesOK(cfg, gate, causes)
    ensures CausesOK(cfg, gate, Ended(causes, t, CancelCause)) && Ended(causes, t, CancelCause).Keys == causes.Keys
  {
  }

  lemma StepKeepsStructure(cfg: Config, gate: Gate, free: bool, ss: StandbySide, step: StandbyStep)
    requires StructureOK(cfg, gate, ss) && StandbyEnabled(cfg, gate, free, ss, step)
    ensures StructureOK(cfg, gate, ApplyStandby(cfg, gate, free, ss, step))
  {
    match step
    case Create(id) => CreateListed(ss.sandboxes, ss.threads, ss.next, id);
    case Run(t, op) => RunKeepsStructure(cfg, gate, ss, t, op);
    case Destroy(id) =>
      if id in ss.sandboxes {
        EndedCauses(cfg, gate, ss.causes, ss.sandboxes[id]);
      }
    case PropagateCause(t) => EndedCauses(cfg, gate, ss.causes, t);
    case _ =>
  }

  // ---------- preservation: who is accounted for ----------

  lemma MoveAccounted(causes: map<nat, Cause>, history: seq<SandboxID>, threads: map<nat, StandbyThread>, admitted: map<nat, nat>, t: nat, p: StandbyPhase)
    requires RunnersAccounted(causes, history, threads, admitted) && t in threads
    requires NeedsAccount(p) ==> t in causes && t in admitted && Accounted(causes[t], history, threads[t].id, admitted[t])
    ensures RunnersAccounted(causes, history, Moved(threads, t, p), admitted)
  {
    assert RunnerAccounted(causes[t], history, threads[t], admitted[t]);
  }

  /** A longer history keeps every runner accounted for. */
  lemma AccountsGrow(causes: map<nat, Cause>, history: seq<SandboxID>, longer: seq<SandboxID>, threads: map<nat, StandbyThread>, admitted: map<nat, nat>)
    requires RunnersAccounted(causes, history, threads, admitted) && history <= longer
    ensures RunnersAccounted(causes, longer, threads, admitted)
  {
    forall t | t in threads ensures t in causes && t in admitted && RunnerAccounted(causes[t], longer, threads[t], admitted[t]) {
      assert RunnerAccounted(causes[t], history, threads[t], admitted[t]);
      if InsertedSince(history, threads[t].id, admitted[t]) {
        InsertedSinceGrows(history, longer, threads[t].id, admitted[t]);
      }
    }
  }

  /** An interruption stays one. */
  lemma CausesKeepAccounts(causes: map<nat, Cause>, causes': map<nat, Cause>, history: seq<SandboxID>, threads: map<nat, StandbyThread>, admitted: map<nat, nat>)
    requires RunnersAccounted(causes, history, threads, admitted)
    requires forall t :: t in causes ==> t in causes' && (causes[t].InterruptCause? ==> causes'[t].InterruptCause?)
    ensures RunnersAccounted(causes', history, threads, admitted)
  {
    forall t | t in threads ensures t in causes' && t in admitted && RunnerAccounted(causes'[t], history, threads[t], admitted[t]) {
      assert RunnerAccounted(causes[t], history, threads[t], admitted[t]);
    }
  }

  lemma CreateAccounted(causes: map<nat, Cause>, history: seq<SandboxID>, threads: map<nat, StandbyThread>, admitted: map<nat, nat>, t: nat, id: SandboxID)
    requires RunnersAccounted(causes, history, threads, admitted) && t !in threads && UnrecordedAt(history, id, |history|)
    ensures RunnersAccounted(causes[t := Live], history, threads[t := StandbyThread(id, Admitted)], admitted[t := |history|])
  {
  }

  /** The runner that reports, or finds its exit reported, is accounted for. */
  lemma RecordExitAccounts(ss: StandbySide, t: nat)
    requires AccountsOK(ss) && ExitsOK(ss)
    requires t in ss.threads && ss.threads[t].phase.Reporting?
    ensures AccountsOK(ApplyRun(ss, t, RecordExit))
  {
    var id := ss.threads[t].id;
    var history := if id in ss.exits.entries then ss.history else ss.history + [id];
    assert RunnerAccounted(ss.causes[t], ss.history, ss.threads[t], ss.admitted[t]);
    if id in ss.exits.entries {
      RecordedIsNew(ss.exits, ss.history, id, ss.admitted[t]);
    } else {
      AccountsGrow(ss.causes, ss.history, history, ss.threads, ss.admitted);
      assert history[|ss.history|] == id;
    }
    MoveAccounted(ss.causes, history, ss.threads, ss.admitted, t, NextRunPhase(ss, t, RecordExit));
  }

  lemma RunKeepsAccounts(ss: StandbySide, t: nat, op: StandbyOp)
    requires AccountsOK(ss) && ExitsOK(ss)
    requires t in ss.threads && RunEnabled(ss.threads[t].phase, op)
    ensures AccountsOK(ApplyRun(ss, t, op))
  {
    if op.RecordExit? {
      RecordExitAccounts(ss, t);
    } else {
      var ss' := ApplyRun(ss, t, op);
      assert RunnerAccounted(ss.causes[t], ss.history, ss.threads[t], ss.admitted[t]);
      OtherRunNeeds(ss, t, op);
      MoveAccounted(ss.causes, ss.history, ss.threads, ss.admitted, t, NextRunPhase(ss, t, op));
      CausesKeepAccounts(ss.causes, ss'.causes, ss.history, ss'.threads, ss.admitted);
    }
  }

  lemma OtherRunNeeds(ss: StandbySide, t: nat, op: StandbyOp)
    requires t in ss.threads && RunEnabled(ss.threads[t].phase, op) && !op.RecordExit?
    ensures NeedsAccount(NextRunPhase(ss, t, op)) ==> NeedsAccount(ss.threads[t].phase) || CauseOf(ss, t).InterruptCause?
    ensures var ss' := ApplyRun(ss, t, op);
            && ss'.threads == Moved(ss.threads, t, NextRunPhase(ss, t, op)) && ss'.history == ss.history && ss'.admitted == ss.admitted
            && (forall u :: u in ss.causes ==> u in ss'.causes && (ss.causes[u].InterruptCause? ==> ss'.causes[u].InterruptCause?))
  {
  }

  lemma WatchKeepsAccounts(gate: Gate, ss: StandbySide, w: nat, op: WatchOp)
    requires AccountsOK(ss) && w in ss.watchers && WatchEnabled(ss.watchers[w].phase, op)
    ensures AccountsOK(ApplyWatch(gate, ss, w, op))
  {
    var ss' := ApplyWatch(gate, ss, w, op);
    assert ss.history <= ss'.history;
    AccountsGrow(ss.causes, ss.history, ss'.history, ss.threads, ss.admitted);
  }

  lemma StepKeepsAccounts(cfg: Config, gate: Gate, free: bool, ss: StandbySide, step: StandbyStep)
    requires AccountsOK(ss) && ExitsOK(ss) && StructureOK(cfg, gate, ss) && StandbyEnabled(cfg, gate, free, ss, step)
    ensures AccountsOK(ApplyStandby(cfg, gate, free, ss, step))
  {
    match step
    case Create(id) =>
      UnrecordedNow(ss.exits, ss.history, id);
      CreateAccounted(ss.causes, ss.history, ss.threads, ss.admitted, ss.next, id);
    case Run(t, op) => RunKeepsAccounts(ss, t, op);
    case Watch(w, op) => WatchKeepsAccounts(gate, ss, w, op);
    case _ =>
      var ss' := ApplyStandby(cfg, gate, free, ss, step);
      assert ss'.threads == ss.threads && ss'.history == ss.history && ss'.admitted == ss.admitted;
      CausesKeepAccounts(ss.causes, ss'.causes, ss.history, ss.threads, ss.admitted);
  }

  // ---------- preservation: who reports ----------

  /** A step that leaves every pending report alone. */
  lemma SameReports(ss: StandbySide, ss': StandbySide)
    requires ReportsOK(ss)
    requires ss'.history == ss.history && ss'.reporters == ss.reporters && ss'.sent == ss.sent
    requires forall u :: u in ss'.threads && ss'.threads[u].phase.ExitPending? ==> u in ss.threads && ss.threads[u] == ss'.threads[u]
    requires forall u :: u in ss.threads && ss.threads[u].phase.ExitPending? ==> u in ss'.threads && ss'.threads[u] == ss.threads[u]
    requires forall u :: u in ss'.watchers && ss'.watchers[u].phase.WatchPending? ==> u in ss.watchers && ss.watchers[u] == ss'.watchers[u]
    requires forall u :: u in ss.watchers && ss.watchers[u].phase.WatchPending? ==> u in ss'.watchers && ss'.watchers[u] == ss.watchers[u]
    ensures ReportsOK(ss')
  {
    forall n | 0 <= n < |ss.reporters| && n !in ss.sent
      ensures AboutToSend(ss'.threads, ss'.watchers, ss.reporters[n], n)
    {
      assert AboutToSend(ss.threads, ss.watchers, ss.reporters[n], n);
    }
  }

  /** Whoever records the exit takes on its report. */
  lemma RecordReports(ss: StandbySide, ss': StandbySide, r: nat, id: SandboxID)
    requires ReportsOK(ss)
    requires ss'.history == ss.history + [id] && ss'.reporters == ss.reporters + [r] && ss'.sent == ss.sent
    requires
      || (r in ss.threads && ss.threads[r].id == id && !ss.threads[r].phase.ExitPending?
          && ss'.threads == Moved(ss.threads, r, ExitPending(|ss.history|)) && ss'.watchers == ss.watchers)
      || (r in ss.watchers && ss.watchers[r].id == id && !ss.watchers[r].phase.WatchPending?
          && ss'.watchers == ss.watchers[r := Watcher(id, WatchPending(|ss.history|))] && ss'.threads == ss.threads)
    ensures ReportsOK(ss')
  {
    forall t, who, n | OwnsReport(ss.history, ss.reporters, ss.sent, t, who, n)
      ensures OwnsReport(ss'.history, ss'.reporters, ss'.sent, t, who, n)
    {
    }
    forall n | 0 <= n < |ss'.reporters| && n !in ss.sent
      ensures AboutToSend(ss'.threads, ss'.watchers, ss'.reporters[n], n)
    {
      if n < |ss.reporters| {
        assert AboutToSend(ss.threads, ss.watchers, ss.reporters[n], n);
      }
    }
  }

  /** An attempted message consumes the insertion that its sender owns. */
  lemma SentReports(ss: StandbySide, ss': StandbySide, r: nat, id: SandboxID, n: nat)
    requires ReportsOK(ss) && OwnsReport(ss.history, ss.reporters, ss.sent, r, id, n)
    requires ss'.history == ss.history && ss'.reporters == ss.reporters && ss'.sent == ss.sent + [n]
    requires
      || (r in ss.threads && r !in ss.watchers && ss.threads[r].phase == ExitPending(n)
          && ss'.threads == Moved(ss.threads, r, Leaving) && ss'.watchers == ss.watchers)
      || (r in ss.watchers && r !in ss.threads && ss.watchers[r].phase == WatchPending(n)
          && ss'.watchers == ss.watchers[r := ss.watchers[r].(phase := WatchDone)] && ss'.threads == ss.threads)
    ensures ReportsOK(ss')
  {
    forall k | 0 <= k < |ss.reporters| && k !in ss'.sent
      ensures AboutToSend(ss'.threads, ss'.watchers, ss.reporters[k], k)
    {
      assert AboutToSend(ss.threads, ss.watchers, ss.reporters[k], k);
    }
  }

  lemma RunKeepsReports(ss: StandbySide, t: nat, op: StandbyOp)
    requires ReportsOK(ss) && NumbersOK(ss.threads, ss.watchers, ss.causes, ss.next)
    requires t in ss.threads && RunEnabled(ss.threads[t].phase, op)
    ensures ReportsOK(ApplyRun(ss, t, op))
  {
    var ss' := ApplyRun(ss, t, op);
    if op.SendExit? {
      SentReports(ss, ss', t, ss.threads[t].id, ss.threads[t].phase.entry);
    } else if op.RecordExit? && ss.threads[t].id !in ss.exits.entries {
      RecordReports(ss, ss', t, ss.threads[t].id);
    } else {
      SameReports(ss, ss');
    }
  }

  lemma WatchKeepsReports(gate: Gate, ss: StandbySide, w: nat, op: WatchOp)
    requires ReportsOK(ss) && NumbersOK(ss.threads, ss.watchers, ss.causes, ss.next)
    requires w in ss.watchers && WatchEnabled(ss.watchers[w].phase, op)
    ensures ReportsOK(ApplyWatch(gate, ss, w, op))
  {
    var ss' := ApplyWatch(gate, ss, w, op);
    if op.SendWatched? {
      SentReports(ss, ss', w, ss.watchers[w].id, ss.watchers[w].phase.entry);
    } else if op.RecordWatched? && ss.watchers[w].id !in ss.exits.entries {
      RecordReports(ss, ss', w, ss.watchers[w].id);
    } else {
      SameReports(ss, ss');
    }
  }

  lemma StepKeepsReports(cfg: Config, gate: Gate, free: bool, ss: StandbySide, step: StandbyStep)
    requires ReportsOK(ss) && StructureOK(cfg, gate, ss) && StandbyEnabled(cfg, gate, free, ss, step)
    ensures ReportsOK(ApplyStandby(cfg, gate, free, ss, step))
  {
    match step
    case Run(t, op) => RunKeepsReports(ss, t, op);
    case Watch(w, op) => WatchKeepsReports(gate, ss, w, op);
    case _ => OtherKeepsReports(cfg, gate, free, ss, step);
  }

  lemma OtherKeepsReports(cfg: Config, gate: Gate, free: bool, ss: StandbySide, step: StandbyStep)
    requires ReportsOK(ss) && NumbersOK(ss.threads, ss.watchers, ss.causes, ss.next)
    requires StandbyEnabled(cfg, gate, free, ss, step) && !step.Run? && !step.Watch?
    ensures ReportsOK(ApplyStandby(cfg, gate, free, ss, step))
  {
    var ss' := ApplyStandby(cfg, gate, free, ss, step);
    assert ss'.history == ss.history && ss'.reporters == ss.reporters && ss'.sent == ss.sent;
    SameReports(ss, ss');
  }

  // ---------- preservation: the exit record ----------

  lemma RunKeepsExits(ss: StandbySide, t: nat, op: StandbyOp)
    requires ExitsOK(ss) && t in ss.threads && RunEnabled(ss.threads[t].phase, op)
    ensures ExitsOK(ApplyRun(ss, t, op))
  {
    PutTracks(ss.exits, ss.history, ss.threads[t].id, ());
  }

  lemma WatchKeepsExits(gate: Gate, ss: StandbySide, w: nat, op: WatchOp)
    requires ExitsOK(ss) && w in ss.watchers && WatchEnabled(ss.watchers[w].phase, op)
    ensures ExitsOK(ApplyWatch(gate, ss, w, op))
  {
    PutTracks(ss.exits, ss.history, ss.watchers[w].id, ());
  }

  lemma StepKeepsExits(cfg: Config, gate: Gate, free: bool, ss: StandbySide, step: StandbyStep)
    requires ExitsOK(ss) && StandbyEnabled(cfg, gate, free, ss, step)
    ensures ExitsOK(ApplyStandby(cfg, gate, free, ss, step))
  {
    match step
    case Run(t, op) => RunKeepsExits(ss, t, op);
    case Watch(w, op) => WatchKeepsExits(gate, ss, w, op);
    case _ =>
      var ss' := ApplyStandby(cfg, gate, free, ss, step);
      assert ss'.exits == ss.exits && ss'.history == ss.history;
  }

  // ---------- preservation: together ----------

  /** Every standby step keeps the standby invariant. */
  lemma StandbyStepKeeps(cfg: Config, gate: Gate, free: bool, ss: StandbySide, step: StandbyStep)
    requires StandbyOK(cfg, gate, ss) && StandbyEnabled(cfg, gate, free, ss, step)
    ensures StandbyOK(cfg, gate, ApplyStandby(cfg, gate, free, ss, step))
  {
    StepKeepsStructure(cfg, gate, free, ss, step);
    StepKeepsAccounts(cfg, gate, free, ss, step);
    StepKeepsReports(cfg, gate, free, ss, step);
    StepKeepsExits(cfg, gate, free, ss, step);
  }

  /** Only whether the worker is shutting down matters of the gate. */
  lemma GateKeeps(cfg: Config, gate: Gate, gate': Gate, ss: StandbySide)
    requires StandbyOK(cfg, gate, ss) && gate'.shuttingDown == gate.shuttingDown
    ensures StandbyOK(cfg, gate', ss)
  {
  }

  lemma StopStandbysKeeps(cfg: Config, gate: Gate, ss: StandbySide)
    requires StandbyOK(cfg, gate, ss)
    ensures StandbyOK(cfg, gate.(shuttingDown := true), StopStandbys(cfg, ss))
  {
    SameReports(ss, StopStandbys(cfg, ss));
    CausesKeepAccounts(ss.causes, StopStandbys(cfg, ss).causes, ss.history, ss.threads, ss.admitted);
  }
}
