/** What shutdown, destroy requests and watched exits reach among the standbys, in every
    run: which cause ends a standby's context, and who reports its exit. */
module StandbyReach {
  import opened Options
  import opened ReplayCache
  import opened WorkerState
  import opened WorkerProtocol
  import opened WorkerMachine
  import opened WorkerTheorems
  import S = StandbyProtocol

  // ---------- causes ----------

  /** Once shutdown began, the context of every listed standby has ended. */
  ghost predicate StandbysStopped(gate: Gate, ss: S.StandbySide) {
    gate.shuttingDown ==> forall id :: id in ss.sandboxes ==> !S.CauseOf(ss, ss.sandboxes[id]).Live?
  }

  lemma StandbyStepKeepsCauses(cfg: Config, gate: Gate, free: bool, ss: S.StandbySide, step: S.StandbyStep, t: nat)
    requires S.StandbyEnabled(cfg, gate, free, ss, step) && ss.next !in ss.causes
    ensures !S.CauseOf(ss, t).Live? ==> S.CauseOf(S.ApplyStandby(cfg, gate, free, ss, step), t) == S.CauseOf(ss, t)
    ensures gate.Closed() ==> forall id :: id in S.ApplyStandby(cfg, gate, free, ss, step).sandboxes ==>
              id in ss.sandboxes && S.ApplyStandby(cfg, gate, free, ss, step).sandboxes[id] == ss.sandboxes[id]
  {
  }

  /** Shutdown gives each listed standby that is still running the cause that its worker
      calls for, and leaves every other one alone. */
  lemma StopStandbysReaches(cfg: Config, ss: S.StandbySide, t: nat)
    ensures var listed := exists id :: id in ss.sandboxes && ss.sandboxes[id] == t;
            S.CauseOf(S.StopStandbys(cfg, ss), t) ==
            if !S.CauseOf(ss, t).Live? || t !in ss.causes || !listed then S.CauseOf(ss, t)
            else if cfg.preserves then InterruptCause
            else CancelCause
  {
  }

  /** Why a standby's context ended never changes afterwards. */
  lemma {:induction false} StandbyCauseStays(run: seq<State>, m: nat, n: nat, t: nat)
    requires IsRun(run) && m <= n < |run| && !S.CauseOf(run[m].standbys, t).Live?
    ensures S.CauseOf(run[n].standbys, t) == S.CauseOf(run[m].standbys, t)
    decreases n
  {
    if m < n {
      StandbyCauseStays(run, m, n - 1, t);
      NextStandbyCause(run, n - 1, t);
    }
  }

  lemma NextStandbyCause(run: seq<State>, n: nat, t: nat)
    requires IsRun(run) && n + 1 < |run| && !S.CauseOf(run[n].standbys, t).Live?
    ensures S.CauseOf(run[n + 1].standbys, t) == S.CauseOf(run[n].standbys, t)
  {
    var s := run[n];
    var step := StepOf(run, n);
    StandbyNumbers(run, n);
    if step.Standby? {
      StandbyStepKeepsCauses(s.cfg, s.gate, StandbyUnitFree(s), s.standbys, step.standby, t);
    } else {
      StopStandbysReaches(s.cfg, s.standbys, t);
    }
  }

  lemma StandbyNumbers(run: seq<State>, n: nat)
    requires IsRun(run) && n < |run|
    ensures run[n].standbys.next !in run[n].standbys.causes
    ensures forall id :: id in run[n].standbys.sandboxes ==> run[n].standbys.sandboxes[id] in run[n].standbys.causes
  {
    RunStandbys(run, n);
  }

  lemma {:induction false} ShutdownEndsStandbys(run: seq<State>, n: nat)
    requires IsRun(run) && n < |run|
    ensures StandbysStopped(run[n].gate, run[n].standbys)
  {
    if n > 0 {
      ShutdownEndsStandbys(run, n - 1);
      StandbyNumbers(run, n - 1);
      var s := run[n - 1];
      var step := StepOf(run, n - 1);
      NextStandbysStopped(s, step);
    }
  }

  lemma NextStandbysStopped(s: State, step: Step)
    requires StandbysStopped(s.gate, s.standbys) && StepEnabled(s, step) && s.standbys.next !in s.standbys.causes
    requires forall id :: id in s.standbys.sandboxes ==> s.standbys.sandboxes[id] in s.standbys.causes
    ensures StandbysStopped(ApplyStep(s, step).gate, ApplyStep(s, step).standbys)
  {
    var s' := ApplyStep(s, step);
    if s'.gate.shuttingDown {
      forall id | id in s'.standbys.sandboxes ensures !S.CauseOf(s'.standbys, s'.standbys.sandboxes[id]).Live? {
        var t := s'.standbys.sandboxes[id];
        if step.Standby? {
          StandbyStepKeepsCauses(s.cfg, s.gate, StandbyUnitFree(s), s.standbys, step.standby, t);
        } else {
          StopStandbysReaches(s.cfg, s.standbys, t);
        }
      }
    }
  }

  /** A destroy request cancels a listed sandbox that is still running, for good, and is the
      source of its end unless there was one before. */
  lemma DestroyReaches(run: seq<State>, m: nat, n: nat, id: S.SandboxID)
    requires IsRun(run) && m < n < |run| && id in run[m].standbys.sandboxes
    requires run[m + 1] == ApplyStep(run[m], Standby(S.Destroy(id)))
    ensures var t := run[m].standbys.sandboxes[id];
            && S.CauseOf(run[n].standbys, t) == (if S.CauseOf(run[m].standbys, t).Live? then CancelCause else S.CauseOf(run[m].standbys, t))
            && SourceOfStandby(run[n].standbys, t) ==
               (if SourceOfStandby(run[m].standbys, t).NoSource? then UserSource else SourceOfStandby(run[m].standbys, t))
  {
    StandbyNumbers(run, m);
    StandbyCauseStays(run, m + 1, n, run[m].standbys.sandboxes[id]);
    StandbySourceStays(run, m + 1, n, run[m].standbys.sandboxes[id]);
  }

  // ---------- what shutdown decides ----------

  /** A standby that is still running when shutdown begins is interrupted exactly if the
      worker preserves its tasks, and cancelled otherwise; that stays its cause. */
  lemma ShutdownDecidesStandbys(run: seq<State>, m: nat, n: nat, id: S.SandboxID)
    requires IsRun(run) && m < n < |run|
    requires !run[m].gate.shuttingDown && run[m + 1].gate.shuttingDown
    requires id in run[m].standbys.sandboxes && S.CauseOf(run[m].standbys, run[m].standbys.sandboxes[id]).Live?
    ensures S.CauseOf(run[n].standbys, run[m].standbys.sandboxes[id]) == if run[m].cfg.preserves then InterruptCause else CancelCause
  {
    var t := run[m].standbys.sandboxes[id];
    StandbyNumbers(run, m);
    var step := StepOf(run, m);
    assert step.ShutdownTasks?;
    StopStandbysReaches(run[m].cfg, run[m].standbys, t);
    StandbyCauseStays(run, m + 1, n, t);
  }

  /** The backend call of a standby has not been looked at yet. */
  predicate Undecided(p: S.StandbyPhase) {
    p.Admitted? || p.Announced? || p.Running? || p.Returned?
  }

  /** A runner that recorded an exit is past its decision. */
  ghost predicate ReportersDecided(ss: S.StandbySide) {
    forall k :: 0 <= k < |ss.reporters| && ss.reporters[k] in ss.threads ==> Reported(ss.threads[ss.reporters[k]].phase)
  }

  predicate Reported(p: S.StandbyPhase) {
    !Undecided(p) && !p.Reporting?
  }

  lemma StepKeepsReporters(cfg: Config, gate: Gate, free: bool, ss: S.StandbySide, step: S.StandbyStep)
    requires S.StandbyEnabled(cfg, gate, free, ss, step) && ReportersDecided(ss)
    requires ss.next !in ss.threads && ss.next !in ss.reporters
    requires forall w :: w in ss.watchers ==> w !in ss.threads
    ensures ReportersDecided(S.ApplyStandby(cfg, gate, free, ss, step))
  {
    var ss' := S.ApplyStandby(cfg, gate, free, ss, step);
    if step.Run? {
      RunDecides(ss, step.t, step.op);
    }
  }

  lemma RunDecides(ss: S.StandbySide, t: nat, op: S.StandbyOp)
    requires t in ss.threads && S.RunEnabled(ss.threads[t].phase, op)
    ensures var p, p' := ss.threads[t].phase, S.NextRunPhase(ss, t, op);
            && (Reported(p) ==> Reported(p')) && (op.RecordExit? ==> Reported(p'))
            && S.ApplyRun(ss, t, op).threads == ss.threads[t := ss.threads[t].(phase := p')]
  {
  }

  /** Reporters have numbers of their own. */
  ghost predicate ReportersNumbered(ss: S.StandbySide) {
    forall k :: 0 <= k < |ss.reporters| ==> ss.reporters[k] < ss.next
  }

  lemma StepKeepsNumbers(cfg: Config, gate: Gate, free: bool, ss: S.StandbySide, step: S.StandbyStep)
    requires S.StandbyEnabled(cfg, gate, free, ss, step) && ReportersNumbered(ss)
    requires S.NumbersOK(ss.threads, ss.watchers, ss.causes, ss.next)
    ensures ReportersNumbered(S.ApplyStandby(cfg, gate, free, ss, step))
  {
  }

  lemma {:induction false} RunReporters(run: seq<State>, n: nat)
    requires IsRun(run) && n < |run|
    ensures ReportersDecided(run[n].standbys) && ReportersNumbered(run[n].standbys)
  {
    if n > 0 {
      RunReporters(run, n - 1);
      RunStandbys(run, n - 1);
      var s := run[n - 1];
      var step := StepOf(run, n - 1);
      if step.Standby? {
        StepKeepsReporters(s.cfg, s.gate, StandbyUnitFree(s), s.standbys, step.standby);
        StepKeepsNumbers(s.cfg, s.gate, StandbyUnitFree(s), s.standbys, step.standby);
      }
    }
  }

  /** The runner was interrupted in time: it has recorded nothing and never will. */
  ghost predicate Silenced(ss: S.StandbySide, t: nat) {
    && t in ss.threads && t !in ss.reporters && S.CauseOf(ss, t).InterruptCause?
    && !ss.threads[t].phase.Reporting? && !ss.threads[t].phase.ExitPending?
  }

  lemma StepKeepsSilenced(cfg: Config, gate: Gate, free: bool, ss: S.StandbySide, step: S.StandbyStep, t: nat)
    requires S.StandbyEnabled(cfg, gate, free, ss, step) && Silenced(ss, t)
    requires S.NumbersOK(ss.threads, ss.watchers, ss.causes, ss.next)
    ensures Silenced(S.ApplyStandby(cfg, gate, free, ss, step), t)
  {
    StandbyStepKeepsCauses(cfg, gate, free, ss, step, t);
    if step.Run? && step.t == t {
      SilencedRun(ss, t, step.op);
    }
  }

  lemma SilencedRun(ss: S.StandbySide, t: nat, op: S.StandbyOp)
    requires Silenced(ss, t) && S.RunEnabled(ss.threads[t].phase, op)
    ensures var ss' := S.ApplyRun(ss, t, op);
            && t in ss'.threads && ss'.reporters == ss.reporters
            && !ss'.threads[t].phase.Reporting? && !ss'.threads[t].phase.ExitPending?
  {
  }

  lemma {:induction false} SilencedStays(run: seq<State>, m: nat, n: nat, t: nat)
    requires IsRun(run) && m <= n < |run| && Silenced(run[m].standbys, t)
    ensures Silenced(run[n].standbys, t)
    decreases n
  {
    if m < n {
      SilencedStays(run, m, n - 1, t);
      NextSilenced(run, n - 1, t);
    }
  }

  lemma NextSilenced(run: seq<State>, n: nat, t: nat)
    requires IsRun(run) && n + 1 < |run| && Silenced(run[n].standbys, t)
    ensures Silenced(run[n + 1].standbys, t)
  {
    var s := run[n];
    var step := StepOf(run, n);
    if step.Standby? {
      RunStandbys(run, n);
      StepKeepsSilenced(s.cfg, s.gate, StandbyUnitFree(s), s.standbys, step.standby, t);
    } else {
      StopStandbysReaches(s.cfg, s.standbys, t);
    }
  }

  /** A standby whose observation is interrupted before its backend call was looked at keeps
      running unreported: its runner never records or sends an exit. */
  lemma InterruptedIsSilent(run: seq<State>, m: nat, n: nat, t: nat)
    requires IsRun(run) && m <= n < |run|
    requires t in run[m].standbys.threads && Undecided(run[m].standbys.threads[t].phase) && S.CauseOf(run[m].standbys, t).InterruptCause?
    ensures t !in run[n].standbys.reporters
    ensures t in run[n].standbys.threads && !run[n].standbys.threads[t].phase.Reporting? && !run[n].standbys.threads[t].phase.ExitPending?
  {
    RunReporters(run, m);
    SilencedStays(run, m, n, t);
  }

  // ---------- sources ----------

  function SourceOfStandby(ss: S.StandbySide, t: nat): Source {
    if t in ss.sources then ss.sources[t] else NoSource
  }

  lemma StepKeepsSource(cfg: Config, gate: Gate, free: bool, ss: S.StandbySide, step: S.StandbyStep, t: nat)
    requires S.StandbyEnabled(cfg, gate, free, ss, step) && !SourceOfStandby(ss, t).NoSource?
    ensures SourceOfStandby(S.ApplyStandby(cfg, gate, free, ss, step), t) == SourceOfStandby(ss, t)
  {
  }

  lemma StopKeepsSource(cfg: Config, ss: S.StandbySide, t: nat)
    requires !SourceOfStandby(ss, t).NoSource?
    ensures SourceOfStandby(S.StopStandbys(cfg, ss), t) == SourceOfStandby(ss, t)
  {
  }

  /** Who first asked a standby to end stays on record. */
  lemma {:induction false} StandbySourceStays(run: seq<State>, m: nat, n: nat, t: nat)
    requires IsRun(run) && m <= n < |run| && !SourceOfStandby(run[m].standbys, t).NoSource?
    ensures SourceOfStandby(run[n].standbys, t) == SourceOfStandby(run[m].standbys, t)
    decreases n
  {
    if m < n {
      StandbySourceStays(run, m, n - 1, t);
      var s := run[n - 1];
      var step := StepOf(run, n - 1);
      if step.Standby? {
        StepKeepsSource(s.cfg, s.gate, StandbyUnitFree(s), s.standbys, step.standby, t);
      } else {
        StopKeepsSource(s.cfg, s.standbys, t);
      }
    }
  }

  /** The shutdown of a worker that does not preserve its tasks is the source of every
      listed standby that had none; one that preserves them leaves the sources alone. */
  lemma ShutdownMarksStandbys(run: seq<State>, m: nat, n: nat, id: S.SandboxID)
    requires IsRun(run) && m < n < |run|
    requires !run[m].gate.shuttingDown && run[m + 1].gate.shuttingDown
    requires id in run[m].standbys.sandboxes && SourceOfStandby(run[m].standbys, run[m].standbys.sandboxes[id]).NoSource?
    ensures run[m].cfg.preserves ==> SourceOfStandby(run[m + 1].standbys, run[m].standbys.sandboxes[id]).NoSource?
    ensures !run[m].cfg.preserves ==> SourceOfStandby(run[n].standbys, run[m].standbys.sandboxes[id]).ShutdownSource?
  {
    var step := StepOf(run, m);
    assert step.ShutdownTasks?;
    if !run[m].cfg.preserves {
      StandbySourceStays(run, m + 1, n, run[m].standbys.sandboxes[id]);
    }
  }

  // ---------- watched exits ----------

  /** A watched exit of a sandbox that has no local runner, in a worker that is not shutting
      down, is on record once its report has been looked at, and its message is sent by the
      watcher if the watcher added the record. */
  lemma WatchedExitRecorded(run: seq<State>, n: nat, w: nat, op: S.WatchOp)
    requires IsRun(run) && n + 1 < |run| && StepEnabled(run[n], Standby(S.Watch(w, op)))
    requires run[n + 1] == ApplyStep(run[n], Standby(S.Watch(w, op)))
    ensures var ss, ss' := run[n].standbys, run[n + 1].standbys;
            var id := ss.watchers[w].id;
            && (op.CheckLocal? ==> (ss'.watchers[w].phase.NotLocal? <==> id !in ss.sandboxes && !run[n].gate.shuttingDown))
            && (op.RecordWatched? ==> id in ss'.exits.entries && (ss'.watchers[w].phase == S.WatchPending(|ss.history|) <==> id !in ss.exits.entries))
            && (op.SendWatched? ==> ss.watchers[w].phase.entry in ss'.sent)
  {
    RunStandbys(run, n);
    var ss := run[n].standbys;
    if op.RecordWatched? && ss.watchers[w].id !in ss.exits.entries {
      PutTracks(ss.exits, ss.history, ss.watchers[w].id, ());
    }
  }

  /** A request is admitted exactly for a sandbox that is neither listed nor recorded, in an
      open worker that is not one-shot, whose backend supports standbys, and with a unit
      left of the limit that applies. */
  lemma AdmissionDecides(run: seq<State>, n: nat, id: S.SandboxID)
    requires IsRun(run) && n < |run|
    ensures var s := run[n];
            StepEnabled(s, Standby(S.Create(id))) <==>
              && id !in s.standbys.sandboxes && id !in s.standbys.exits.entries
              && !s.gate.shuttingDown && !s.gate.ctxDone && !s.cfg.oneShot && s.cfg.supportsStandbys
              && (s.cfg.standbyLimit > 0 ==> |Holders(s.standbys.threads, RunnerHoldsUnit)| < s.cfg.standbyLimit)
              && (s.cfg.standbyLimit == 0 && s.cfg.taskLimit > 0 ==>
                    |Holders(s.tasks.threads, AssignmentHoldsSlot)| + |Holders(s.tasks.threads, ExecutionHoldsSlot)|
                    + |Holders(s.standbys.threads, RunnerHoldsUnit)| < s.cfg.taskLimit)
  {
    SlotsConserved(run, n);
  }

  // ---------- nothing is stuck ----------

  function NextRunOp(p: S.StandbyPhase): (op: Option<S.StandbyOp>)
    ensures op.Some? ==> S.RunEnabled(p, op.value)
  {
    match p
    case Admitted => Some(S.SendCreated)
    case Announced => Some(S.CallBackend)
    case Running => Some(S.BackendReturns)
    case Returned => Some(S.Decide)
    case Reporting => Some(S.RecordExit)
    case ExitPending(_) => Some(S.SendExit)
    case Leaving => Some(S.ReturnUnit)
    case UnitReturned => Some(S.DeleteEntry)
    case EntryDeleted => Some(S.CloseDone)
    case DoneClosed => Some(S.LeaveWaitGroup)
    case Finished => None
  }

  /** A standby can go on until it is over, a watched exit until it was dealt with, and
      destroy requests and watched exits come at any moment. */
  lemma StandbysGoOn(s: State, t: nat, w: nat, id: S.SandboxID)
    ensures t in s.standbys.threads ==>
              ((exists op :: StepEnabled(s, Standby(S.Run(t, op)))) <==> !s.standbys.threads[t].phase.Finished?)
    ensures w in s.standbys.watchers ==>
              ((exists op :: StepEnabled(s, Standby(S.Watch(w, op)))) <==> !s.standbys.watchers[w].phase.WatchDone?)
    ensures StepEnabled(s, Standby(S.Destroy(id))) && StepEnabled(s, Standby(S.Notice(id)))
  {
    if t in s.standbys.threads && NextRunOp(s.standbys.threads[t].phase).Some? {
      assert StepEnabled(s, Standby(S.Run(t, NextRunOp(s.standbys.threads[t].phase).value)));
    }
    if w in s.standbys.watchers && !s.standbys.watchers[w].phase.WatchDone? {
      var p := s.standbys.watchers[w].phase;
      assert StepEnabled(s, Standby(S.Watch(w, if p.Noticed? then S.CheckLocal else if p.NotLocal? then S.RecordWatched else S.SendWatched)));
    }
  }
}
