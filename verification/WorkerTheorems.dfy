/** What holds in every run of the worker, whatever interleaves. */
module WorkerTheorems {
  import opened Sequences
  import opened ReplayCache
  import opened WorkerState
  import opened WorkerProtocol
  import opened WorkerInvariant
  import opened WorkerSteps
  import opened WorkerReplay
  import opened WorkerOrigins
  import opened WorkerMachine
  import S = StandbyProtocol

  ghost predicate IsRun(run: seq<State>) {
    && |run| > 0 && Init(run[0])
    && (forall n :: 0 <= n < |run| - 1 ==> StepsAt(run, n))
  }

  ghost predicate StepsAt(run: seq<State>, n: nat)
    requires n + 1 < |run|
  {
    Next(run[n], run[n + 1])
  }

  lemma {:induction false} RunInv(run: seq<State>, n: nat)
    requires IsRun(run) && n < |run|
    ensures Inv(run[n])
  {
    if n == 0 {
      InitInv(run[0]);
    } else {
      RunInv(run, n - 1);
      assert StepsAt(run, n - 1);
      NextInv(run[n - 1], run[n]);
    }
  }

  lemma NextInv(s: State, s': State)
    requires Inv(s) && Next(s, s')
    ensures Inv(s')
  {
    var step :| StepEnabled(s, step) && s' == ApplyStep(s, step);
    StepInv(s, step);
  }

  lemma StepOf(run: seq<State>, n: nat) returns (step: Step)
    requires IsRun(run) && n + 1 < |run|
    ensures StepEnabled(run[n], step) && run[n + 1] == ApplyStep(run[n], step)
  {
    assert StepsAt(run, n);
    step :| StepEnabled(run[n], step) && run[n + 1] == ApplyStep(run[n], step);
  }

  lemma RunRegistry(run: seq<State>, n: nat)
    requires IsRun(run) && n < |run|
    ensures RegistryOK(run[n].cfg, run[n].gate, run[n].tasks)
  {
    RunInv(run, n);
  }

  lemma RunReplay(run: seq<State>, n: nat)
    requires IsRun(run) && n < |run|
    ensures ReplayOK(run[n].gate, run[n].tasks)
  {
    RunInv(run, n);
  }

  lemma RunOrigins(run: seq<State>, n: nat)
    requires IsRun(run) && n < |run|
    ensures OriginsOK(run[n].cfg, run[n].gate, run[n].tasks)
  {
    RunInv(run, n);
  }

  lemma RunStandbys(run: seq<State>, n: nat)
    requires IsRun(run) && n < |run|
    ensures S.StandbyOK(run[n].cfg, run[n].gate, run[n].standbys)
  {
    RunInv(run, n);
  }

  /** A new thread or runner takes a number that nobody has. */
  lemma RunNumbers(run: seq<State>, n: nat)
    requires IsRun(run) && n < |run|
    ensures run[n].tasks.next !in run[n].tasks.threads && run[n].standbys.next !in run[n].standbys.threads
  {
    RunInv(run, n);
    assert run[n].tasks.next !in Views(run[n].tasks.threads);
  }

  /** What a step of the machine does to the task side. */
  lemma TasksUnder(s: State, step: Step)
    requires StepEnabled(s, step)
    ensures var ts' := ApplyStep(s, step).tasks;
            if step.Task? then ts' == Apply(EnvOf(s), s.tasks, step.task)
            else ts' == s.tasks || (ts' == ApplyStop(s.cfg, s.tasks) && !s.gate.shuttingDown)
  {
  }

  // ---------- one execution per key ----------

  /** While an execution runs, the entry under its key is the one it inserted, with an
      open done channel; so a key has one running execution at most. */
  lemma OneExecutionPerKey(run: seq<State>, n: nat, i: nat, j: nat)
    requires IsRun(run) && n < |run|
    requires Executing(run[n].tasks, i) && Executing(run[n].tasks, j)
    ensures var ts := run[n].tasks;
            var key := ts.threads[i].key;
            && key in ts.reg.active && ts.reg.active[key].id == i && ts.reg.doneCloses[i] == 0
            && (ts.threads[j].key == key ==> i == j)
  {
    RunRegistry(run, n);
    var s := run[n];
    assert ThreadOK(s.cfg, s.gate, s.tasks.reg, i, Views(s.tasks.threads)[i]);
    assert ThreadOK(s.cfg, s.gate, s.tasks.reg, j, Views(s.tasks.threads)[j]);
  }

  /** A done channel is never closed twice, and a settled execution closed its own. */
  lemma DoneClosedOnce(run: seq<State>, n: nat, i: nat)
    requires IsRun(run) && n < |run|
    ensures run[n].tasks.reg.doneCloses[i] <= 1
    ensures i in run[n].tasks.threads ==>
              (run[n].tasks.reg.doneCloses[i] == 1 <==> StageOf(run[n].tasks.threads[i].phase).Released?)
  {
    RunRegistry(run, n);
    var s := run[n];
    if i in s.tasks.threads {
      assert ThreadOK(s.cfg, s.gate, s.tasks.reg, i, Views(s.tasks.threads)[i]);
    }
  }

  // ---------- claims and reports ----------

  function Claims(h: History): nat {
    match h
    case Start => 0
    case Then(b, e) => Claims(b) + if e.ClaimSent? then 1 else 0
  }

  function FirstEvent(h: History): Event
    requires h.Then?
  {
    if h.before.Start? then h.last else FirstEvent(h.before)
  }

  function Calls(h: History): nat {
    match h
    case Start => 0
    case Then(b, e) => Calls(b) + if e.ExecuteCalled? then 1 else 0
  }

  function Reports(h: History): nat {
    match h
    case Start => 0
    case Then(b, e) => Reports(b) + if e.ReportSent? then 1 else 0
  }

  function Outcomes(h: History): set<Outcome> {
    match h
    case Start => {}
    case Then(b, e) => Outcomes(b) + if e.ExecuteReturned? then {e.outcome} else {}
  }

  /** One claim, first of all, and one backend call with this outcome. */
  ghost predicate RanOnce(h: History, o: Outcome) {
    && Claims(h) == 1 && Calls(h) == 1 && h.Then? && FirstEvent(h).ClaimSent?
    && Outcomes(h) == {o}
  }

  /** What a complete history reports: exactly one report, or none if the execution was
      spawned or its observation was interrupted. A failed execution is reported as
      cancelled exactly if a user's cancellation was seen, left unreported exactly if an
      interruption was seen, and reported as failed exactly if neither was; never were
      both. */
  ghost predicate ReportsOnce(h: History) {
    exists o :: RanOnce(h, o) && ReportFits(h, o)
  }

  predicate ReportFits(h: History, o: Outcome)
    requires h.Then?
  {
    match o
    case Completed => h.last == ReportSent(ReportCompleted) && Reports(h) == 1
    case Spawned => Reports(h) == 0
    case Errored =>
      && !(SeenUser(h) && SeenInterruption(h))
      && (h.last == ReportSent(ReportCancelled) <==> SeenUser(h))
      && (h.last.Interrupted? <==> SeenInterruption(h))
      && (h.last == ReportSent(ReportFailed) <==> !SeenUser(h) && !SeenInterruption(h))
      && Reports(h) == if h.last.Interrupted? then 0 else 1
  }

  /** A history so far without a report, and what it has seen. */
  ghost predicate Unreported(h: History, o: Outcome, user: bool, interruption: bool) {
    RanOnce(h, o) && Reports(h) == 0 && SeenUser(h) == user && SeenInterruption(h) == interruption
  }

  lemma ReturnedCounts(h: History, o: Outcome)
    requires ReturnedTrace(h, o)
    ensures Unreported(h, o, h.last.stop.UserStopped?, h.last.stop.ObservationStopped?)
  {
    var claimed := Then(Start, ClaimSent);
    assert Claims(claimed) == 1 && Calls(claimed) == 0 && Reports(claimed) == 0 && Outcomes(claimed) == {};
    assert !SeenUser(claimed) && !SeenInterruption(claimed) && FirstEvent(claimed).ClaimSent?;
    assert h.before == Then(claimed, ExecuteCalled);
    assert Claims(h.before) == 1 && Calls(h.before) == 1 && Reports(h.before) == 0 && Outcomes(h.before) == {};
    assert !SeenUser(h.before) && !SeenInterruption(h.before) && FirstEvent(h.before).ClaimSent?;
  }

  lemma LookedCounts(h: History)
    requires LookedTrace(h)
    ensures Unreported(h, Errored, h.last.stop.UserStopped?, false)
  {
    ReturnedCounts(h.before, Errored);
  }

  lemma ReadCounts(h: History)
    requires ReadTrace(h)
    ensures Unreported(h, Errored, h.last.user, false)
  {
    LookedCounts(h.before);
  }

  lemma DecidedCounts(h: History, user: bool)
    requires DecidedTrace(h, user)
    ensures Unreported(h, Errored, user, false)
  {
    if ReadTrace(h) {
      ReadCounts(h);
    } else {
      ReadCounts(h.before);
    }
  }

  lemma FinalTraceReportsOnce(h: History)
    requires FinalTrace(h)
    ensures ReportsOnce(h)
  {
    if ReturnedTrace(h, Spawned) {
      ReturnedCounts(h, Spawned);
      assert RanOnce(h, Spawned) && ReportFits(h, Spawned);
    } else if InterruptedTrace(h) {
      ReturnedCounts(h.before, Errored);
      assert RanOnce(h, Errored) && ReportFits(h, Errored);
    } else if h.last == ReportSent(ReportCompleted) {
      ReturnedCounts(h.before, Completed);
      assert RanOnce(h, Completed) && ReportFits(h, Completed);
    } else {
      DecidedCounts(h.before, h.last == ReportSent(ReportCancelled));
      assert RanOnce(h, Errored) && ReportFits(h, Errored);
    }
  }

  /** Every execution that settled its entry claimed once, first, and reported once. */
  lemma OneReportPerExecution(run: seq<State>, n: nat, i: nat)
    requires IsRun(run) && n < |run|
    requires i in run[n].tasks.threads && StageOf(run[n].tasks.threads[i].phase).Released?
    ensures ReportsOnce(run[n].tasks.threads[i].trace)
  {
    RunRegistry(run, n);
    assert TraceOK(run[n].tasks.threads[i]);
    FinalTraceReportsOnce(run[n].tasks.threads[i].trace);
  }

  /** A user's cancellation is seen only if one was requested, after the claim, for that
      execution or for its whole task; an interruption only in a worker that preserves its
      tasks and is shutting down. */
  lemma StopsHaveCauses(run: seq<State>, m: nat, n: nat, i: nat, key: TaskExecution)
    requires IsRun(run) && m < n < |run|
    requires !WasClaimed(run[m].tasks, i, key) && WasClaimed(run[m + 1].tasks, i, key)
    ensures i in run[n].tasks.threads
    ensures SeenUser(run[n].tasks.threads[i].trace) ==>
              exists r :: |run[m].tasks.requests| <= r < |run[n].tasks.requests| && Covers(run[n].tasks.requests[r], key)
    ensures SeenInterruption(run[n].tasks.threads[i].trace) ==> run[n].gate.shuttingDown && run[n].cfg.preserves
  {
    RunOrigins(run, n);
    ClaimedThen(run, m, i, key);
    ClaimStays(run, m + 1, n, i, key);
    var s := run[n];
    assert StopsOK(s.cfg, s.gate, s.tasks.requests, s.tasks.claims, i, s.tasks.threads[i]);
  }

  /** The cancellation source of an entry is written at most once. */
  lemma SourceWrittenOnce(run: seq<State>, n: nat, key: TaskExecution)
    requires IsRun(run) && n + 1 < |run|
    requires key in run[n].tasks.reg.active && key in run[n + 1].tasks.reg.active
    requires run[n].tasks.reg.active[key].id == run[n + 1].tasks.reg.active[key].id
    ensures var before, after := run[n].tasks.reg.active[key].source, run[n + 1].tasks.reg.active[key].source;
            before == after || before.NoSource?
  {
    RunRegistry(run, n);
    var s := run[n];
    var step := StepOf(run, n);
    assert EntryOK(s.gate, s.tasks.reg, Views(s.tasks.threads), s.tasks.cancellers.Keys, key, s.tasks.reg.active[key]);
    TasksUnder(s, step);
    if step.Task? {
      SourceUnderStep(EnvOf(s), s.tasks, step.task, key);
    }
  }

  lemma SourceUnderStep(e: Env, ts: TaskSide, step: TaskStep, key: TaskExecution)
    requires Enabled(e, ts, step) && key in ts.reg.active && key in Apply(e, ts, step).reg.active
    requires ts.reg.active[key].source.UserSource? <==> ts.reg.active[key].cancelling
    requires ts.reg.active[key].source.ShutdownSource? ==> e.gate.shuttingDown
    requires ts.reg.active[key].id == Apply(e, ts, step).reg.active[key].id
    ensures var before, after := ts.reg.active[key].source, Apply(e, ts, step).reg.active[key].source;
            before == after || before.NoSource?
  {
    if step.Thread? {
      SourceUnderOp(e, ts, step.t, step.op, key);
    }
  }

  lemma SourceUnderOp(e: Env, ts: TaskSide, t: nat, op: Op, key: TaskExecution)
    requires t in ts.threads && OpEnabled(ts.threads[t].phase, op)
    requires key in ts.reg.active && key in ApplyOp(e, ts, t, op).reg.active
    ensures ApplyOp(e, ts, t, op).reg.active[key].source == ts.reg.active[key].source
  {
    if op.Bookkeep? {
      SettleActive(ts.reg, ts.threads[t].key, ts.threads[t].phase.interrupted);
    }
  }

  // ---------- semaphores ----------

  /** An assignment between acquiring a unit and handing it on or back. */
  predicate AssignmentHoldsSlot(th: TaskThread) {
    th.phase.Acquired? || th.phase.LateShutdown? || th.phase.LateDuplicate?
  }

  /** An execution before its deferred release. */
  predicate ExecutionHoldsSlot(th: TaskThread) {
    || th.phase.Inserted? || th.phase.Claimed? || th.phase.Running? || th.phase.Returned? || th.phase.NotInterrupted?
    || th.phase.CancelSeen? || th.phase.Sending? || th.phase.Ended? || th.phase.ContextEnded? || th.phase.Settled?
  }

  /** A standby before its release. */
  predicate RunnerHoldsUnit(th: S.StandbyThread) {
    !th.phase.UnitReturned? && !th.phase.EntryDeleted? && !th.phase.DoneClosed? && !th.phase.Finished?
  }

  lemma PhaseHoldsSlot(th: TaskThread)
    ensures TaskHoldsSlot(th) <==> AssignmentHoldsSlot(th) || ExecutionHoldsSlot(th)
    ensures !(AssignmentHoldsSlot(th) && ExecutionHoldsSlot(th))
  {
  }

  lemma PhasesHoldSlots(ts: TaskSide)
    ensures TaskSlots(ts) == |Holders(ts.threads, AssignmentHoldsSlot)| + |Holders(ts.threads, ExecutionHoldsSlot)|
  {
    var a, x := Holders(ts.threads, AssignmentHoldsSlot), Holders(ts.threads, ExecutionHoldsSlot);
    forall i | i in ts.threads
      ensures TaskHoldsSlot(ts.threads[i]) <==> AssignmentHoldsSlot(ts.threads[i]) || ExecutionHoldsSlot(ts.threads[i])
      ensures !(AssignmentHoldsSlot(ts.threads[i]) && ExecutionHoldsSlot(ts.threads[i]))
    {
      PhaseHoldsSlot(ts.threads[i]);
    }
    assert Holders(ts.threads, TaskHoldsSlot) == a + x;
    assert a !! x;
  }

  lemma PhasesHoldUnits(ss: S.StandbySide)
    ensures StandbyUnits(ss) == |Holders(ss.threads, RunnerHoldsUnit)|
  {
    assert Holders(ss.threads, StandbyHoldsUnit) == Holders(ss.threads, RunnerHoldsUnit);
  }

  /** The units held are exactly those of assignments between acquire and hand-off,
      of executions before their deferred release, and of standbys that share the
      semaphore; and the limits are never exceeded. */
  lemma SlotsConserved(run: seq<State>, n: nat)
    requires IsRun(run) && n < |run|
    ensures var s := run[n];
            var tasks := |Holders(s.tasks.threads, AssignmentHoldsSlot)| + |Holders(s.tasks.threads, ExecutionHoldsSlot)|;
            var runners := |Holders(s.standbys.threads, RunnerHoldsUnit)|;
            && (s.cfg.taskLimit > 0 && s.cfg.standbyLimit > 0 ==> s.taskHeld == tasks)
            && (s.cfg.taskLimit > 0 && s.cfg.standbyLimit == 0 ==> s.taskHeld == tasks + runners)
            && (s.cfg.taskLimit > 0 ==> 0 <= s.taskHeld <= s.cfg.taskLimit)
            && (s.cfg.standbyLimit > 0 ==> s.standbyHeld == runners <= s.cfg.standbyLimit)
  {
    RunCounters(run, n);
    PhasesHoldSlots(run[n].tasks);
    PhasesHoldUnits(run[n].standbys);
  }

  /** An assignment counts from its admission until it is refused or dropped, or its
      execution is over. */
  predicate Counted(th: TaskThread) {
    && !th.phase.Received? && !th.phase.Ignored? && !th.phase.Rejecting? && !th.phase.Rejected?
    && !th.phase.Dropped? && !th.phase.Finished?
  }

  predicate RunnerCounted(th: S.StandbyThread) {
    !th.phase.Finished?
  }

  lemma PhasesCount(ts: TaskSide, ss: S.StandbySide)
    ensures TaskGroup(ts) == |Holders(ts.threads, Counted)| && StandbyGroup(ss) == |Holders(ss.threads, RunnerCounted)|
  {
    assert Holders(ts.threads, TaskHoldsGroup) == Holders(ts.threads, Counted);
    assert Holders(ss.threads, StandbyHoldsGroup) == Holders(ss.threads, RunnerCounted);
  }

  lemma RunCounters(run: seq<State>, n: nat)
    requires IsRun(run) && n < |run|
    ensures CountersOK(run[n])
  {
    RunInv(run, n);
  }

  /** The wait group counts admitted assignments, unfinished executions and unfinished standbys. */
  lemma WaitGroupConserved(run: seq<State>, n: nat)
    requires IsRun(run) && n < |run|
    ensures run[n].waitGroup == |Holders(run[n].tasks.threads, Counted)| + |Holders(run[n].standbys.threads, RunnerCounted)|
    ensures run[n].waitGroup == 0 ==>
              (forall i :: !Executing(run[n].tasks, i)) && (forall t :: !Sheltering(run[n].standbys, t))
  {
    RunCounters(run, n);
    PhasesCount(run[n].tasks, run[n].standbys);
    if run[n].waitGroup == 0 {
      EmptyGroupIsQuiet(run[n].tasks, run[n].standbys);
    }
  }

  // ---------- at most once within the replay window ----------

  predicate WasClaimed(ts: TaskSide, i: nat, key: TaskExecution) {
    i in ts.threads && ts.threads[i].key == key && !StageOf(ts.threads[i].phase).Pending?
  }

  /** A claim inserts the entry of an unknown key while the gate is open, and marks how
      much was recorded and requested by then. */
  lemma ClaimInserts(s: State, step: Step, i: nat, key: TaskExecution)
    requires StepEnabled(s, step)
    requires !WasClaimed(s.tasks, i, key) && WasClaimed(ApplyStep(s, step).tasks, i, key)
    ensures key !in s.tasks.reg.active && key !in s.tasks.reg.completed.entries && !s.gate.shuttingDown && !s.gate.ctxDone
    ensures var claims := ApplyStep(s, step).tasks.claims;
            i in claims && claims[i] == Mark(|s.tasks.completions|, |s.tasks.requests|)
  {
    if step.Task? && step.task.Thread? {
      var t, op := step.task.t, step.task.op;
      if !op.Bookkeep? {
        OpStage(EnvOf(s), s.tasks.reg, t, s.tasks.threads[t], op);
      }
    }
  }

  lemma ClaimedThen(run: seq<State>, m: nat, i: nat, key: TaskExecution)
    requires IsRun(run) && m + 1 < |run|
    requires !WasClaimed(run[m].tasks, i, key) && WasClaimed(run[m + 1].tasks, i, key)
    ensures key !in run[m].tasks.reg.active && key !in run[m].tasks.reg.completed.entries
    ensures !run[m].gate.shuttingDown && !run[m].gate.ctxDone
    ensures i in run[m + 1].tasks.claims
    ensures run[m + 1].tasks.claims[i] == Mark(|run[m].tasks.completions|, |run[m].tasks.requests|)
  {
    var step := StepOf(run, m);
    ClaimInserts(run[m], step, i, key);
  }

  lemma ClaimKept(s: State, step: Step, i: nat, key: TaskExecution)
    requires StepEnabled(s, step) && WasClaimed(s.tasks, i, key) && s.tasks.next !in s.tasks.threads
    ensures WasClaimed(ApplyStep(s, step).tasks, i, key)
    ensures i in s.tasks.claims ==> i in ApplyStep(s, step).tasks.claims && ApplyStep(s, step).tasks.claims[i] == s.tasks.claims[i]
  {
    if step.Task? && step.task.Thread? {
      var t, op := step.task.t, step.task.op;
      if !op.Bookkeep? {
        OpStage(EnvOf(s), s.tasks.reg, t, s.tasks.threads[t], op);
      }
    }
  }

  /** A claim and its mark stay. */
  lemma {:induction false} ClaimStays(run: seq<State>, m: nat, n: nat, i: nat, key: TaskExecution)
    requires IsRun(run) && m <= n < |run| && WasClaimed(run[m].tasks, i, key) && i in run[m].tasks.claims
    ensures WasClaimed(run[n].tasks, i, key) && i in run[n].tasks.claims
    ensures run[n].tasks.claims[i] == run[m].tasks.claims[i]
    decreases n
  {
    if m < n {
      ClaimStays(run, m, n - 1, i, key);
      RunNumbers(run, n - 1);
      var step := StepOf(run, n - 1);
      ClaimKept(run[n - 1], step, i, key);
    }
  }

  /** When a key is claimed again after an earlier claim of it, that claim was recorded, and
      after the record CACHE_SIZE pairwise distinct other executions were recorded. This
      holds for any two claims of a key, however often it was claimed before. */
  lemma AtMostOncePerWindow(run: seq<State>, m: nat, first: nat, n: nat, again: nat, key: TaskExecution)
    requires IsRun(run) && m < n && n + 1 < |run| && key.executionID != ""
    requires !WasClaimed(run[m].tasks, first, key) && WasClaimed(run[m + 1].tasks, first, key)
    requires !WasClaimed(run[n].tasks, again, key) && WasClaimed(run[n + 1].tasks, again, key)
    ensures var ts := run[n].tasks;
            var newer := ts.reg.completed.order;
            && |newer| == CACHE_SIZE && NoDuplicates(newer) && key !in newer
            && exists p :: |run[m].tasks.completions| <= p < |ts.completions| - CACHE_SIZE && ts.completions[p] == key
                           && newer == ts.completions[|ts.completions| - CACHE_SIZE..]
  {
    RunReplay(run, n);
    ClaimedThen(run, m, first, key);
    ClaimStays(run, m + 1, n, first, key);
    ClaimedThen(run, n, again, key);
    var s := run[n];
    var views := Views(s.tasks.threads);
    assert first in views && ClaimOK(s.gate, s.tasks.reg, s.tasks.completions, s.tasks.claims, first, views[first].key);
    EvictionNeedsDistinctKeys(s.tasks.reg.completed, s.tasks.completions, key, |run[m].tasks.completions|);
  }

  /** Why the law needs an execution ID: an execution that ends without being spawned,
      cancelled or interrupted is known afterwards exactly if it has one. */
  lemma SettledIsKnown(r: Registry, key: TaskExecution)
    requires key in r.active && !r.active[key].spawned && !r.active[key].source.UserSource? && key !in r.completed.entries
    ensures var r' := Settle(r, key, false); (key in r'.active || key in r'.completed.entries) <==> key.executionID != ""
  {
  }

  /** So the next assignment of it is admitted exactly if it has none, unless the gate is
      closed or the one-shot latch is taken. */
  lemma NextAssignmentAdmitted(e: Env, r: Registry, t: nat, th: TaskThread)
    requires th.phase.Received? && !e.gate.Closed() && !(e.cfg.oneShot && e.latch.accepted)
    requires th.key in r.active && !r.active[th.key].spawned && !r.active[th.key].source.UserSource? && th.key !in r.completed.entries
    ensures NextPhase(e, Settle(r, th.key, false), t, th, FirstCheck).Admitted? <==> th.key.executionID == ""
  {
    SettledIsKnown(r, th.key);
  }

  /** The completed cache lists exactly the recorded keys, without duplicates and
      within its bound, and it is the newest part of all that was ever recorded. */
  lemma CompletedCacheBounded(run: seq<State>, n: nat)
    requires IsRun(run) && n < |run|
    ensures var c := run[n].tasks.reg.completed;
            && NoDuplicates(c.order) && |c.order| <= CACHE_SIZE
            && (forall k :: k in c.entries <==> k in c.order)
            && c.order == Newest(run[n].tasks.completions)
            && (forall k :: k in c.entries ==> k.executionID != "")
  {
    RunReplay(run, n);
    NewestDistinct(run[n].tasks.completions);
  }

  /** An accepted cancellation stays accepted while its key is recorded. */
  lemma AcceptedStays(run: seq<State>, n: nat, key: TaskExecution)
    requires IsRun(run) && n + 1 < |run|
    requires key in run[n].tasks.reg.completed.entries && run[n].tasks.reg.completed.entries[key]
    requires key in run[n + 1].tasks.reg.completed.entries
    ensures run[n + 1].tasks.reg.completed.entries[key]
  {
    RunRegistry(run, n);
    var s := run[n];
    var step := StepOf(run, n);
    if step.Task? && step.task.Thread? {
      assert ThreadOK(s.cfg, s.gate, s.tasks.reg, step.task.t, Views(s.tasks.threads)[step.task.t]);
    }
    TasksUnder(s, step);
    if step.Task? {
      AcceptedUnderStep(EnvOf(s), s.tasks, step.task, key);
    }
  }

  lemma AcceptedUnderStep(e: Env, ts: TaskSide, step: TaskStep, key: TaskExecution)
    requires Enabled(e, ts, step)
    requires key in ts.reg.completed.entries && ts.reg.completed.entries[key]
    requires key in Apply(e, ts, step).reg.completed.entries
    requires step.Thread? && StageOf(ts.threads[step.t].phase).Holding? ==>
               ts.threads[step.t].key !in ts.reg.completed.entries
    ensures Apply(e, ts, step).reg.completed.entries[key]
  {
    if step.Thread? {
      AcceptedUnderOp(e, ts.reg, step.t, ts.threads[step.t], step.op, key);
    }
  }

  lemma AcceptedUnderOp(e: Env, reg: Registry, t: nat, th: TaskThread, op: Op, key: TaskExecution)
    requires OpEnabled(th.phase, op)
    requires StageOf(th.phase).Holding? ==> th.key !in reg.completed.entries
    requires key in reg.completed.entries && key in NextRegistry(e, reg, t, th, op).completed.entries
    ensures NextRegistry(e, reg, t, th, op).completed.entries[key] == reg.completed.entries[key]
  {
  }

  // ---------- cancellation ----------

  /** The backend is asked to cancel an execution only while no execution of that key runs,
      and after one of them ran and settled with a complete history. */
  lemma CancelCallsFollowReturn(run: seq<State>, n: nat, c: Ticket)
    requires IsRun(run) && n < |run|
    requires c in run[n].tasks.cancellers && !run[n].tasks.cancellers[c].WaitingDone? && !run[n].tasks.cancellers[c].Exited?
    ensures forall i :: Executing(run[n].tasks, i) ==> run[n].tasks.threads[i].key != c.key
    ensures HasSettled(run[n].tasks, c.key)
  {
    RunRegistry(run, n);
    RunOrigins(run, n);
    var s := run[n];
    var views := Views(s.tasks.threads);
    CancellerRan(s.cfg, s.gate, s.tasks.reg, views, s.tasks.cancellers, s.tasks.completions, s.tasks.cancelCalls, c);
    RanIsSettled(s.tasks, c.key);
    forall i | Executing(s.tasks, i) ensures s.tasks.threads[i].key != c.key {
      assert i in views && views[i].stage.Holding?;
    }
  }

  /** Some execution of this key has settled with a complete history. */
  ghost predicate HasSettled(ts: TaskSide, key: TaskExecution) {
    exists i :: i in ts.threads && ts.threads[i].key == key && StageOf(ts.threads[i].phase).Released? && FinalTrace(ts.threads[i].trace)
  }

  lemma RanIsSettled(ts: TaskSide, key: TaskExecution)
    requires TracesOK(ts.threads) && Ran(Views(ts.threads), key)
    ensures HasSettled(ts, key)
  {
    var views := Views(ts.threads);
    var i :| i in views && views[i].key == key && views[i].stage.Released?;
    assert TraceOK(ts.threads[i]);
  }

  /** A call is made by a canceller in its loop, so it meets that condition; and whatever
      was recorded, kept as a placeholder or asked to be cancelled did run. */
  lemma OnlySettledExecutionsAreCancelled(run: seq<State>, n: nat, k: nat)
    requires IsRun(run) && n < |run| && k < |run[n].tasks.cancelCalls|
    ensures HasSettled(run[n].tasks, run[n].tasks.cancelCalls[k].key)
  {
    RunRegistry(run, n);
    RunOrigins(run, n);
    RanIsSettled(run[n].tasks, run[n].tasks.cancelCalls[k].key);
  }

  /** The step that makes a backend call is taken by a canceller past its wait. */
  lemma CallsComeFromCancellers(run: seq<State>, n: nat)
    requires IsRun(run) && n + 1 < |run| && run[n + 1].tasks.cancelCalls != run[n].tasks.cancelCalls
    ensures var calls := run[n + 1].tasks.cancelCalls;
            && |calls| == |run[n].tasks.cancelCalls| + 1
            && var c := calls[|calls| - 1];
               && c in run[n].tasks.cancellers && run[n].tasks.cancellers[c].Looping?
               && (forall i :: Executing(run[n].tasks, i) ==> run[n].tasks.threads[i].key != c.key)
               && HasSettled(run[n].tasks, c.key)
  {
    var step := StepOf(run, n);
    var calls := run[n + 1].tasks.cancelCalls;
    assert step.Task? && step.task.MoveCanceller? && step.task.move.Begin?;
    CancelCallsFollowReturn(run, n, calls[|calls| - 1]);
  }

  /** A request starts a canceller only for entries that never had one. */
  lemma CancellersStartOnce(run: seq<State>, n: nat, key: TaskExecution, c: Ticket)
    requires IsRun(run) && n < |run| && !run[n].gate.Closed()
    requires c in StartedTickets(run[n].tasks.reg, key, run[n].tasks.next)
    ensures c !in run[n].tasks.cancellers
    ensures c.key.taskID == key.taskID && (key.executionID != "" ==> c.key == key)
  {
    RunRegistry(run, n);
    var s := run[n];
    var mid := Prepared(s.tasks.reg, key, s.tasks.next);
    if key.executionID != "" {
      AgreePlaceholder(s.cfg, s.gate, s.tasks.reg, Views(s.tasks.threads), s.tasks.cancellers, key, s.tasks.next);
    }
    StartsAreNew(s.cfg, s.gate, mid, Views(s.tasks.threads), s.tasks.cancellers, Targets(s.tasks.reg, key), c);
  }

  /** A canceller that has exited never lives again. */
  lemma {:induction false} ExitedForGood(run: seq<State>, n: nat, m: nat, c: Ticket)
    requires IsRun(run) && n <= m < |run|
    requires c in run[n].tasks.cancellers && run[n].tasks.cancellers[c].Exited?
    ensures c in run[m].tasks.cancellers && run[m].tasks.cancellers[c] == run[n].tasks.cancellers[c]
  {
    if n < m {
      ExitedForGood(run, n, m - 1, c);
      ExitedNext(run, m - 1, c);
    }
  }

  lemma ExitedNext(run: seq<State>, n: nat, c: Ticket)
    requires IsRun(run) && n + 1 < |run|
    requires c in run[n].tasks.cancellers && run[n].tasks.cancellers[c].Exited?
    ensures c in run[n + 1].tasks.cancellers && run[n + 1].tasks.cancellers[c] == run[n].tasks.cancellers[c]
  {
    var step := StepOf(run, n);
    if step.Task? && step.task.CancelRequest? && c in StartedTickets(run[n].tasks.reg, step.task.key, run[n].tasks.next) {
      CancellersStartOnce(run, n, step.task.key, c);
      assert false;
    }
    TasksUnder(run[n], step);
    if step.Task? {
      ExitedUnderStep(EnvOf(run[n]), run[n].tasks, step.task, c);
    }
  }

  lemma ExitedUnderStep(e: Env, ts: TaskSide, step: TaskStep, c: Ticket)
    requires Enabled(e, ts, step)
    requires c in ts.cancellers && ts.cancellers[c].Exited?
    requires step.CancelRequest? ==> c !in StartedTickets(ts.reg, step.key, ts.next)
    ensures c in Apply(e, ts, step).cancellers && Apply(e, ts, step).cancellers[c] == ts.cancellers[c]
  {
  }

  /** A live canceller's entry is the one it was started for, so its acceptance removes
      that entry and nothing else. */
  lemma AcceptanceRemovesOwnEntry(run: seq<State>, n: nat, c: Ticket)
    requires IsRun(run) && n < |run|
    requires c in run[n].tasks.cancellers && run[n].tasks.cancellers[c].CallAccepted?
    ensures var before, after := run[n].tasks.reg.active, AcceptCancellation(run[n].tasks.reg, c.key).active;
            && c.key in before && before[c.key].id == c.id
            && after == before - {c.key}
    ensures ApplyCancelMove(run[n].tasks, c, Record).reg == AcceptCancellation(run[n].tasks.reg, c.key)
  {
    RunRegistry(run, n);
    var s := run[n];
    assert CancellerOK(s.tasks.reg, Views(s.tasks.threads), c, s.tasks.cancellers[c]);
    AcceptActive(s.tasks.reg, c.key);
  }

  lemma AcceptActive(reg: Registry, key: TaskExecution)
    ensures AcceptCancellation(reg, key).active == reg.active - {key}
  {
  }

  /** Replaying an accepted cancellation while it is recorded starts nothing and
      changes nothing. */
  lemma AcceptedReplayIsSilent(ts: TaskSide, key: TaskExecution)
    requires key.executionID != "" && key in ts.reg.completed.entries && ts.reg.completed.entries[key]
    ensures ApplyCancelRequest(ts, key) == ts.(next := ts.next + 1, requests := ts.requests + [key])
  {
    var ts' := ApplyCancelRequest(ts, key);
    assert Cancellable(ts.reg, {}) == {};
    assert ts'.reg.active == ts.reg.active && ts'.reg.contexts == ts.reg.contexts;
    assert ts'.cancellers == ts.cancellers;
  }

  /** An execution-scoped request leaves every other entry and context as it was. */
  lemma ScopedRequestFrame(run: seq<State>, n: nat, key: TaskExecution, other: TaskExecution)
    requires IsRun(run) && n < |run| && key.executionID != "" && other != key
    ensures var reg, reg' := run[n].tasks.reg, ApplyCancelRequest(run[n].tasks, key).reg;
            && (other in reg'.active <==> other in reg.active)
            && (other in reg.active ==> reg'.active[other] == reg.active[other])
            && (other in reg.active && reg.active[other].local && reg.active[other].id in reg.contexts ==>
                  reg'.contexts[reg.active[other].id] == reg.contexts[reg.active[other].id])
            && reg'.completed == reg.completed
  {
    RunRegistry(run, n);
    var s := run[n];
    var reg := s.tasks.reg;
    var mid := Prepared(reg, key, s.tasks.next);
    if other in reg.active && reg.active[other].local {
      assert EntryOK(s.gate, reg, Views(s.tasks.threads), s.tasks.cancellers.Keys, other, reg.active[other]);
      if key in reg.active {
        assert EntryOK(s.gate, reg, Views(s.tasks.threads), s.tasks.cancellers.Keys, key, reg.active[key]);
      }
      assert reg.active[other].id < s.tasks.next;
      assert key in mid.active ==> mid.active[key].id != reg.active[other].id;
    }
    ScopedFrame(reg, key, other, s.tasks.next);
  }

  lemma ScopedFrame(reg: Registry, key: TaskExecution, other: TaskExecution, newId: nat)
    requires key.executionID != "" && other != key
    requires other in reg.active && reg.active[other].local && key in Prepared(reg, key, newId).active ==>
               Prepared(reg, key, newId).active[key].id != reg.active[other].id
    ensures var reg' := RequestCancellation(reg, key, newId);
            && (other in reg'.active <==> other in reg.active)
            && (other in reg.active ==> reg'.active[other] == reg.active[other])
            && (other in reg.active && reg.active[other].local && reg.active[other].id in reg.contexts ==>
                  reg'.contexts[reg.active[other].id] == reg.contexts[reg.active[other].id])
            && reg'.completed == reg.completed
  {
  }

  // ---------- shutdown ----------

  /** Once shutdown began, no record is added, no execution and no standby starts, and the
      wait group never rises. */
  lemma {:induction false} ShutdownGate(run: seq<State>, n: nat, m: nat)
    requires IsRun(run) && n <= m < |run| && run[n].gate.shuttingDown
    ensures run[m].gate.shuttingDown && run[m].waitGroup <= run[n].waitGroup
    ensures run[m].tasks.reg.active.Keys <= run[n].tasks.reg.active.Keys
    ensures run[m].standbys.sandboxes.Keys <= run[n].standbys.sandboxes.Keys
    ensures forall i :: Executing(run[m].tasks, i) ==> Executing(run[n].tasks, i)
    ensures forall t :: Sheltering(run[m].standbys, t) ==> Sheltering(run[n].standbys, t)
  {
    if n < m {
      ShutdownGate(run, n, m - 1);
      ShutdownNext(run, m - 1);
    }
  }

  lemma ShutdownNext(run: seq<State>, n: nat)
    requires IsRun(run) && n + 1 < |run| && run[n].gate.shuttingDown
    ensures run[n + 1].gate.shuttingDown && run[n + 1].waitGroup <= run[n].waitGroup
    ensures run[n + 1].tasks.reg.active.Keys <= run[n].tasks.reg.active.Keys
    ensures run[n + 1].standbys.sandboxes.Keys <= run[n].standbys.sandboxes.Keys
    ensures forall i :: Executing(run[n + 1].tasks, i) ==> Executing(run[n].tasks, i)
    ensures forall t :: Sheltering(run[n + 1].standbys, t) ==> Sheltering(run[n].standbys, t)
  {
    var step := StepOf(run, n);
    NothingStarts(run[n], step);
  }

  /** A shutdown wait that did not time out missed no work: nothing runs then or later. */
  lemma CleanShutdownIsQuiet(run: seq<State>, n: nat, m: nat)
    requires IsRun(run) && n <= m < |run| && run[n].shutdown == ShutDown(true)
    ensures forall i :: !Executing(run[m].tasks, i)
    ensures forall t :: !Sheltering(run[m].standbys, t)
  {
    RunInv(run, n);
    ShutdownGate(run, n, m);
  }

  // ---------- standbys ----------

  /** The runner `t` was admitted for this sandbox. */
  predicate WasAdmitted(ss: S.StandbySide, t: nat, id: S.SandboxID) {
    t in ss.threads && ss.threads[t].id == id
  }

  lemma AdmissionMarks(cfg: Config, gate: Gate, free: bool, ss: S.StandbySide, step: S.StandbyStep, t: nat)
    requires S.StandbyEnabled(cfg, gate, free, ss, step)
    requires t !in ss.threads && t in S.ApplyStandby(cfg, gate, free, ss, step).threads
    ensures var admitted := S.ApplyStandby(cfg, gate, free, ss, step).admitted; t in admitted && admitted[t] == |ss.history|
  {
  }

  lemma AdmissionKept(cfg: Config, gate: Gate, free: bool, ss: S.StandbySide, step: S.StandbyStep, t: nat, id: S.SandboxID)
    requires S.StandbyEnabled(cfg, gate, free, ss, step)
    requires WasAdmitted(ss, t, id) && t in ss.admitted && ss.next !in ss.threads
    ensures var ss' := S.ApplyStandby(cfg, gate, free, ss, step);
            WasAdmitted(ss', t, id) && t in ss'.admitted && ss'.admitted[t] == ss.admitted[t]
  {
  }

  /** Other steps leave runners and admissions alone. */
  lemma OtherStepsKeepRunners(s: State, step: Step)
    requires StepEnabled(s, step) && !step.Standby?
    ensures var ss' := ApplyStep(s, step).standbys;
            ss'.threads == s.standbys.threads && ss'.admitted == s.standbys.admitted
  {
  }

  lemma AdmittedThen(run: seq<State>, m: nat, t: nat)
    requires IsRun(run) && m + 1 < |run|
    requires t !in run[m].standbys.threads && t in run[m + 1].standbys.threads
    ensures t in run[m + 1].standbys.admitted && run[m + 1].standbys.admitted[t] == |run[m].standbys.history|
  {
    var s := run[m];
    var step := StepOf(run, m);
    if step.Standby? {
      AdmissionMarks(s.cfg, s.gate, StandbyUnitFree(s), s.standbys, step.standby, t);
    } else {
      OtherStepsKeepRunners(s, step);
    }
  }

  lemma {:induction false} AdmissionStays(run: seq<State>, m: nat, n: nat, t: nat, id: S.SandboxID)
    requires IsRun(run) && m <= n < |run| && WasAdmitted(run[m].standbys, t, id) && t in run[m].standbys.admitted
    ensures WasAdmitted(run[n].standbys, t, id) && t in run[n].standbys.admitted
    ensures run[n].standbys.admitted[t] == run[m].standbys.admitted[t]
    decreases n
  {
    if m < n {
      AdmissionStays(run, m, n - 1, t, id);
      RunNumbers(run, n - 1);
      var s := run[n - 1];
      var step := StepOf(run, n - 1);
      if step.Standby? {
        AdmissionKept(s.cfg, s.gate, StandbyUnitFree(s), s.standbys, step.standby, t, id);
      } else {
        OtherStepsKeepRunners(s, step);
      }
    }
  }

  /** A sandbox that was admitted is live, or its exit was recorded after that admission
      and is still recorded or pushed out by newer exits, or its observation was interrupted
      by the shutdown of a worker that preserves its tasks. This holds for every admission
      of an ID, however often it was admitted before. */
  lemma StandbyNoGap(run: seq<State>, m: nat, n: nat, t: nat, id: S.SandboxID)
    requires IsRun(run) && m < n < |run|
    requires t !in run[m].standbys.threads && WasAdmitted(run[m + 1].standbys, t, id)
    ensures var ss := run[n].standbys;
            || (id in ss.sandboxes && ss.sandboxes[id] == t)
            || (exists p :: |run[m].standbys.history| <= p < |ss.history| && ss.history[p] == id
                            && (id in ss.exits.entries || |ss.history| - p > CACHE_SIZE))
            || (S.CauseOf(ss, t).InterruptCause? && run[n].gate.shuttingDown && run[n].cfg.preserves)
  {
    RunStandbys(run, n);
    AdmittedThen(run, m, t);
    AdmissionStays(run, m + 1, n, t, id);
    NoGap(run[n].gate, run[n].cfg, run[n].standbys, t);
  }

  lemma NoGap(gate: Gate, cfg: Config, ss: S.StandbySide, t: nat)
    requires S.StandbyOK(cfg, gate, ss) && t in ss.threads
    ensures t in ss.admitted
    ensures var id := ss.threads[t].id;
            || (id in ss.sandboxes && ss.sandboxes[id] == t)
            || (exists p :: ss.admitted[t] <= p < |ss.history| && ss.history[p] == id
                            && (id in ss.exits.entries || |ss.history| - p > CACHE_SIZE))
            || (S.CauseOf(ss, t).InterruptCause? && gate.shuttingDown && cfg.preserves)
  {
    var id := ss.threads[t].id;
    assert S.RunnerAccounted(ss.causes[t], ss.history, ss.threads[t], ss.admitted[t]);
    if !S.IsListed(ss.threads[t].phase) && !ss.causes[t].InterruptCause? {
      var p :| ss.admitted[t] <= p < |ss.history| && ss.history[p] == id;
      if |ss.history| - p <= CACHE_SIZE {
        WindowHolds(ss.history, p);
      }
    }
  }

  /** The message of every recorded exit was attempted, or its reporter is about to attempt
      it. */
  lemma RecordedExitsAreReported(run: seq<State>, n: nat, k: nat)
    requires IsRun(run) && n < |run| && k < |run[n].standbys.history|
    ensures var ss := run[n].standbys;
            && |ss.reporters| == |ss.history|
            && (k in ss.sent || S.AboutToSend(ss.threads, ss.watchers, ss.reporters[k], k))
  {
    RunStandbys(run, n);
  }

  /** Two exit messages for one sandbox are more than CACHE_SIZE exits apart, and every
      message belongs to the reporter that recorded its exit. */
  lemma ExitMessagesSpaced(run: seq<State>, n: nat, a: nat, b: nat)
    requires IsRun(run) && n < |run| && a < b < |run[n].standbys.sent|
    ensures var ss := run[n].standbys;
            && ss.sent[a] < |ss.history| && ss.sent[b] < |ss.history| && ss.sent[a] != ss.sent[b]
            && (ss.history[ss.sent[a]] == ss.history[ss.sent[b]] ==>
                  ss.sent[b] - ss.sent[a] > CACHE_SIZE || ss.sent[a] - ss.sent[b] > CACHE_SIZE)
  {
    RunStandbys(run, n);
    var ss := run[n].standbys;
    assert ss.sent[a] != ss.sent[b];
    assert Spaced(ss.history);
  }

  // ---------- one-shot ----------

  /** In one-shot mode at most one execution is ever claimed in the whole run. */
  lemma OneShotRunsOnce(run: seq<State>, n: nat, i: nat, j: nat)
    requires IsRun(run) && n < |run| && run[n].cfg.oneShot
    requires i in run[n].tasks.threads && !StageOf(run[n].tasks.threads[i].phase).Pending?
    requires j in run[n].tasks.threads && !StageOf(run[n].tasks.threads[j].phase).Pending?
    ensures i == j
  {
    RunInv(run, n);
    assert InOneShotWindow(run[n].tasks.threads[i].phase) && InOneShotWindow(run[n].tasks.threads[j].phase);
  }

  /** Completion is signalled only by an execution with a complete history, a settled
      entry and a returned slot. */
  lemma SignalAfterReport(run: seq<State>, n: nat)
    requires IsRun(run) && n < |run| && run[n].latch.signalled
    ensures exists i :: i in run[n].tasks.threads && FinalTrace(run[n].tasks.threads[i].trace)
                        && !HoldsSlot(run[n].tasks.threads[i].phase)
                        && run[n].tasks.reg.doneCloses[i] == 1
  {
    var i := Signaller(run, n);
    DoneClosedOnce(run, n, i);
  }

  lemma Signaller(run: seq<State>, n: nat) returns (i: nat)
    requires IsRun(run) && n < |run| && run[n].latch.signalled
    ensures i in run[n].tasks.threads && (run[n].tasks.threads[i].phase.Signalled? || run[n].tasks.threads[i].phase.Finished?)
    ensures FinalTrace(run[n].tasks.threads[i].trace)
  {
    RunInv(run, n);
    i := SignallerIn(run[n].cfg, run[n].latch, run[n].tasks.threads);
  }

  lemma SignallerIn(cfg: Config, latch: Latch, threads: map<nat, TaskThread>) returns (i: nat)
    requires OneShotOK(cfg, latch, threads) && latch.signalled && TracesOK(threads)
    ensures i in threads && (threads[i].phase.Signalled? || threads[i].phase.Finished?)
    ensures FinalTrace(threads[i].trace)
  {
    i :| i in threads && (threads[i].phase.Signalled? || threads[i].phase.Finished?);
    assert TraceOK(threads[i]);
  }
}
