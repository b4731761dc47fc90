/** The sidecar volume cache of the Docker backend: any number of tasks prepare one named
    volume at once, each engine call is a step of its own, and replies may be lost after
    the call took effect. Volumes with different names share nothing, so the machine
    follows one name. */
module SidecarVolume {

  datatype Contents = Absent | Partial | Complete

  datatype Reply = Done | Missing | Lost

  /** Where a task stands inside `prepareSidecarVolume`; a `Sent` stage waits for the
      engine, an `Answered` stage holds its reply. */
  datatype Stage =
    | Waiting
    | Entered
    | RemoveSent | RemoveAnswered(reply: Reply)
    | Clean
    | InspectSent | InspectAnswered(reply: Reply)
    | Marked
    | CreateSent | CreateAnswered(reply: Reply)
    | Populating | PopulateAnswered(reply: Reply)
    | CleanupSent | CleanupAnswered(reply: Reply)
    | Leaving(ok: bool)
    | Returned(ok: bool)

  datatype State = State(tasks: map<nat, Stage>, gateHeld: bool, dirty: bool, contents: Contents)

  predicate Holds(s: Stage) {
    !s.Waiting? && !s.Returned?
  }

  /** A task's private view: its stage and what the gate protects. */
  datatype Cell = Cell(stage: Stage, gateHeld: bool, dirty: bool, contents: Contents)

  // ---------- engine calls ----------

  /** A removal: the engine may refuse, or act; a reply that says so is truthful, but any
      reply may be lost. */
  predicate RemoveCall(before: Contents, after: Contents, reply: Reply) {
    match reply
    case Done => !before.Absent? && after.Absent?
    case Missing => before.Absent? && after.Absent?
    case Lost => after == before || after.Absent?
  }

  predicate InspectCall(before: Contents, after: Contents, reply: Reply) {
    && after == before
    && (reply.Done? ==> !before.Absent?)
    && (reply.Missing? ==> before.Absent?)
  }

  /** Creating a volume that exists leaves it as it is. */
  predicate CreateCall(before: Contents, after: Contents, reply: Reply) {
    match reply
    case Done => after == if before.Absent? then Partial else before
    case Missing => after == before
    case Lost => after == before || (before.Absent? && after.Partial?)
  }

  /** Populating reports success only for full contents. When it fails, anything may have
      been extracted. */
  predicate PopulateCall(before: Contents, after: Contents, reply: Reply) {
    && (reply.Done? ==> after.Complete?)
    && (before.Complete? ==> after.Complete?)
    && (before.Absent? ==> !reply.Done?)
  }

  // ---------- steps of one task ----------

  predicate LocalStep(c: Cell, d: Cell) {
    match c.stage
    case Waiting =>
      || d == c.(stage := Returned(false))
      || (!c.gateHeld && d == c.(stage := Entered, gateHeld := true))
    case Entered => d == c.(stage := if c.dirty then RemoveSent else Clean)
    case RemoveSent => d.stage.RemoveAnswered? && RemoveCall(c.contents, d.contents, d.stage.reply) && d == c.(stage := d.stage, contents := d.contents)
    case RemoveAnswered(reply) =>
      d == if reply.Lost? then c.(stage := Leaving(false)) else c.(stage := Clean, dirty := false)
    case Clean => d == c.(stage := InspectSent)
    case InspectSent => d.stage.InspectAnswered? && InspectCall(c.contents, d.contents, d.stage.reply) && d == c.(stage := d.stage, contents := d.contents)
    case InspectAnswered(reply) =>
      d == (match reply
            case Done => c.(stage := Leaving(true))
            case Lost => c.(stage := Leaving(false))
            case Missing => c.(stage := Marked, dirty := true))
    case Marked => d == c.(stage := CreateSent)
    case CreateSent => d.stage.CreateAnswered? && CreateCall(c.contents, d.contents, d.stage.reply) && d == c.(stage := d.stage, contents := d.contents)
    case CreateAnswered(reply) => d == c.(stage := if reply.Done? then Populating else Leaving(false))
    case Populating =>
      || (d == c.(contents := d.contents) && PopulateCall(c.contents, d.contents, Lost))
      || (d.stage.PopulateAnswered? && PopulateCall(c.contents, d.contents, d.stage.reply) && d == c.(stage := d.stage, contents := d.contents))
    case PopulateAnswered(reply) =>
      d == if reply.Done? then c.(stage := Leaving(true), dirty := false) else c.(stage := CleanupSent)
    case CleanupSent => d.stage.CleanupAnswered? && RemoveCall(c.contents, d.contents, d.stage.reply) && d == c.(stage := d.stage, contents := d.contents)
    case CleanupAnswered(reply) =>
      d == c.(stage := Leaving(false), dirty := if reply.Lost? then c.dirty else false)
    case Leaving(ok) => d == c.(stage := Returned(ok), gateHeld := false)
    case Returned(_) => false
  }

  function CellOf(s: State, t: nat): (c: Cell)
    requires t in s.tasks
  {
    Cell(s.tasks[t], s.gateHeld, s.dirty, s.contents)
  }

  ghost predicate Step(s: State, s': State) {
    || (exists t: nat :: Arrives(s, s', t))
    || (exists t: nat :: t in s.tasks && TaskStep(s, s', t))
  }

  predicate Arrives(s: State, s': State, t: nat) {
    t !in s.tasks && s' == s.(tasks := s.tasks[t := Waiting])
  }

  predicate TaskStep(s: State, s': State, t: nat)
    requires t in s.tasks
  {
    && t in s'.tasks
    && s'.tasks == s.tasks[t := s'.tasks[t]]
    && LocalStep(CellOf(s, t), CellOf(s', t))
  }

  /** Volumes present when the worker starts are complete. */
  predicate Init(s: State) {
    s.tasks == map[] && !s.gateHeld && !s.dirty && !s.contents.Partial?
  }

  // ---------- the invariant ----------

  /** What the holder of the gate knows at each stage. */
  predicate HolderOK(stage: Stage, dirty: bool, contents: Contents) {
    match stage
    case Waiting => true
    case Returned(_) => true
    case Entered => dirty || !contents.Partial?
    case RemoveSent => dirty
    case RemoveAnswered(reply) => dirty && (reply.Lost? || contents.Absent?)
    case Clean => !dirty && !contents.Partial?
    case InspectSent => !dirty && !contents.Partial?
    case InspectAnswered(reply) => !dirty && !contents.Partial? && (reply.Done? ==> contents.Complete?) && (reply.Missing? ==> contents.Absent?)
    case Marked => dirty
    case CreateSent => dirty
    case CreateAnswered(_) => dirty
    case Populating => dirty
    case PopulateAnswered(reply) => dirty && (reply.Done? ==> contents.Complete?)
    case CleanupSent => dirty
    case CleanupAnswered(reply) => dirty && (reply.Lost? || contents.Absent?)
    case Leaving(ok) => if ok then !dirty && contents.Complete? else dirty || !contents.Partial?
  }

  /** While the gate is free, an existing volume that is not dirty is complete. */
  predicate Trusted(s: State) {
    !s.gateHeld ==> s.dirty || !s.contents.Partial?
  }

  ghost predicate Inv(s: State) {
    && (forall t, u :: t in s.tasks && u in s.tasks && Holds(s.tasks[t]) && Holds(s.tasks[u]) ==> t == u)
    && (forall t :: t in s.tasks && Holds(s.tasks[t]) ==> s.gateHeld)
    && (forall t :: t in s.tasks ==> HolderOK(s.tasks[t], s.dirty, s.contents))
    && (s.gateHeld ==> exists t :: t in s.tasks && Holds(s.tasks[t]))
    && Trusted(s)
  }

  /** One task's step, seen on what the gate protects. */
  lemma LocalStepKeeps(c: Cell, d: Cell)
    requires LocalStep(c, d) && HolderOK(c.stage, c.dirty, c.contents)
    requires Holds(c.stage) ==> c.gateHeld
    requires !c.gateHeld ==> c.dirty || !c.contents.Partial?
    ensures HolderOK(d.stage, d.dirty, d.contents)
    ensures !d.gateHeld ==> d.dirty || !d.contents.Partial?
    ensures Holds(d.stage) ==> d.gateHeld
    ensures Holds(c.stage) && !Holds(d.stage) ==> !d.gateHeld
    ensures !Holds(c.stage) && Holds(d.stage) ==> !c.gateHeld
    ensures !Holds(c.stage) ==> d.dirty == c.dirty && d.contents == c.contents
    ensures !Holds(c.stage) && !Holds(d.stage) ==> d.gateHeld == c.gateHeld
    ensures Holds(c.stage) && Holds(d.stage) ==> d.gateHeld
    ensures d.stage == Leaving(true) ==> !d.dirty && d.contents.Complete?
  {
  }

  lemma StepInv(s: State, s': State)
    requires Inv(s) && Step(s, s')
    ensures Inv(s')
  {
    if t: nat :| t in s.tasks && TaskStep(s, s', t) {
      TaskStepInv(s, s', t);
    } else {
      var t: nat :| Arrives(s, s', t);
      ArrivalInv(s, s', t);
    }
  }

  lemma ArrivalInv(s: State, s': State, t: nat)
    requires Inv(s) && Arrives(s, s', t)
    ensures Inv(s')
  {
    if s.gateHeld {
      var u :| u in s.tasks && Holds(s.tasks[u]);
      assert u in s'.tasks && Holds(s'.tasks[u]);
    }
  }

  lemma TaskStepInv(s: State, s': State, t: nat)
    requires Inv(s) && t in s.tasks && TaskStep(s, s', t)
    ensures Inv(s')
  {
    LocalStepKeeps(CellOf(s, t), CellOf(s', t));
    forall u | u in s'.tasks && u != t && Holds(s'.tasks[u])
      ensures !Holds(s.tasks[t]) && !Holds(s'.tasks[t])
    {
      assert u in s.tasks && Holds(s.tasks[u]);
    }
    forall u | u in s'.tasks ensures HolderOK(s'.tasks[u], s'.dirty, s'.contents) {
      if u != t {
        assert u in s.tasks && s.tasks[u] == s'.tasks[u];
      }
    }
    if s'.gateHeld && !Holds(s'.tasks[t]) {
      assert s.gateHeld && !Holds(s.tasks[t]);
      var u :| u in s.tasks && Holds(s.tasks[u]);
      assert u in s'.tasks && Holds(s'.tasks[u]);
    }
  }

  // ---------- whole runs ----------

  ghost predicate StepsAt(run: seq<State>, i: nat)
    requires i + 1 < |run|
  {
    Step(run[i], run[i + 1])
  }

  ghost predicate Run(run: seq<State>) {
    && |run| > 0 && Init(run[0])
    && (forall i: nat :: i + 1 < |run| ==> StepsAt(run, i))
  }

  lemma {:induction false} RunInv(run: seq<State>, i: nat)
    requires Run(run) && i < |run|
    ensures Inv(run[i])
    decreases i
  {
    if i > 0 {
      RunInv(run, i - 1);
      assert StepsAt(run, i - 1);
      StepInv(run[i - 1], run[i]);
    }
  }

  /** In every interleaving, whatever replies the engine gives or loses, an existing volume
      that is not dirty is complete whenever the gate is free. */
  lemma FreeGateIsTrusted(run: seq<State>, i: nat)
    requires Run(run) && i < |run| && !run[i].gateHeld && !run[i].dirty
    ensures run[i].contents.Absent? || run[i].contents.Complete?
  {
    RunInv(run, i);
  }

  /** A task has been handed the volume, or is about to be. */
  predicate HandedTo(s: State, t: nat) {
    t in s.tasks && (s.tasks[t] == Leaving(true) || s.tasks[t] == Returned(true))
  }

  /** What stays true from the first hand-over on: nothing is dirty, so no later task ever
      reaches a removal, a creation or an extraction. */
  ghost predicate Settled(s: State) {
    && !s.dirty && s.contents.Complete?
    && (forall t :: t in s.tasks ==> Harmless(s.tasks[t]))
  }

  predicate Harmless(stage: Stage) {
    || stage.Waiting? || stage.Entered? || stage.Clean? || stage.InspectSent?
    || (stage.InspectAnswered? && !stage.reply.Missing?)
    || stage.Leaving? || stage.Returned?
  }

  lemma HandOverSettles(s: State, t: nat)
    requires Inv(s) && t in s.tasks && s.tasks[t] == Leaving(true)
    ensures Settled(s)
  {
    forall u | u in s.tasks ensures Harmless(s.tasks[u]) {
      if u != t {
        assert Holds(s.tasks[t]) && !Holds(s.tasks[u]);
      }
    }
  }

  lemma StepKeepsSettled(s: State, s': State)
    requires Settled(s) && Step(s, s')
    ensures Settled(s')
  {
    if t: nat :| t in s.tasks && TaskStep(s, s', t) {
      assert Harmless(s.tasks[t]);
      forall u | u in s'.tasks ensures Harmless(s'.tasks[u]) {
        if u != t {
          assert u in s.tasks && s'.tasks[u] == s.tasks[u];
        }
      }
    }
  }

  lemma {:induction false} HandedMeansSettled(run: seq<State>, i: nat, t: nat)
    requires Run(run) && i < |run| && HandedTo(run[i], t)
    ensures Settled(run[i])
    decreases i
  {
    RunInv(run, i);
    if run[i].tasks[t] == Leaving(true) {
      HandOverSettles(run[i], t);
    } else {
      assert i > 0;
      assert StepsAt(run, i - 1);
      ReturnedCameFrom(run[i - 1], run[i], t);
      HandedMeansSettled(run, i - 1, t);
      StepKeepsSettled(run[i - 1], run[i]);
    }
  }

  lemma ReturnedCameFrom(s: State, s': State, t: nat)
    requires Step(s, s') && t in s'.tasks && s'.tasks[t] == Returned(true)
    ensures HandedTo(s, t)
  {
    if u: nat :| u in s.tasks && TaskStep(s, s', u) {
      if u == t {
        assert LocalStep(CellOf(s, t), CellOf(s', t));
      }
    }
  }

  /** The safety law: preparation succeeds only for a volume with complete contents, and
      the volume is never emptied, removed or rewritten afterwards. */
  lemma {:induction false} PreparedStaysComplete(run: seq<State>, i: nat, j: nat, t: nat)
    requires Run(run) && i <= j < |run| && HandedTo(run[i], t)
    ensures run[j].contents.Complete? && !run[j].dirty
    ensures Settled(run[j])
    decreases j
  {
    if i == j {
      HandedMeansSettled(run, i, t);
    } else {
      PreparedStaysComplete(run, i, j - 1, t);
      assert StepsAt(run, j - 1);
      StepKeepsSettled(run[j - 1], run[j]);
    }
  }

  /** A task that waits can enter as soon as the gate is free, and from then on it can always
      go on until it has returned. */
  lemma TasksGoOn(run: seq<State>, i: nat, t: nat)
    requires Run(run) && i < |run| && t in run[i].tasks
    ensures run[i].tasks[t].Waiting? && !run[i].gateHeld ==> LocalStep(CellOf(run[i], t), CellOf(run[i], t).(stage := Entered, gateHeld := true))
    ensures (exists d :: LocalStep(CellOf(run[i], t), d)) <==> !run[i].tasks[t].Returned?
  {
    var c := CellOf(run[i], t);
    match c.stage
    case Waiting => assert LocalStep(c, c.(stage := Returned(false)));
    case Entered => assert LocalStep(c, c.(stage := if c.dirty then RemoveSent else Clean));
    case RemoveSent => assert LocalStep(c, c.(stage := RemoveAnswered(Lost)));
    case RemoveAnswered(reply) => assert LocalStep(c, if reply.Lost? then c.(stage := Leaving(false)) else c.(stage := Clean, dirty := false));
    case Clean => assert LocalStep(c, c.(stage := InspectSent));
    case InspectSent => assert LocalStep(c, c.(stage := InspectAnswered(Lost)));
    case InspectAnswered(reply) =>
      assert LocalStep(c, if reply.Missing? then c.(stage := Marked, dirty := true) else c.(stage := Leaving(reply.Done?)));
    case Marked => assert LocalStep(c, c.(stage := CreateSent));
    case CreateSent => assert LocalStep(c, c.(stage := CreateAnswered(Lost)));
    case CreateAnswered(reply) => assert LocalStep(c, c.(stage := if reply.Done? then Populating else Leaving(false)));
    case Populating => assert LocalStep(c, c.(stage := PopulateAnswered(Lost)));
    case PopulateAnswered(reply) => assert LocalStep(c, if reply.Done? then c.(stage := Leaving(true), dirty := false) else c.(stage := CleanupSent));
    case CleanupSent => assert LocalStep(c, c.(stage := CleanupAnswered(Lost)));
    case CleanupAnswered(reply) => assert LocalStep(c, c.(stage := Leaving(false), dirty := if reply.Lost? then c.dirty else false));
    case Leaving(ok) => assert LocalStep(c, c.(stage := Returned(ok), gateHeld := false));
    case Returned(_) =>
  }

  // ---------- one call ----------

  /** The engine's side of one volume; `failures` counts the replies that were no good. */
  class Engine {
    var contents: Contents
    ghost var failures: nat

    constructor (present: Contents)
      ensures contents == present && failures == 0
    {
      contents, failures := present, 0;
    }

    method Remove() returns (reply: Reply)
      modifies this
      ensures RemoveCall(old(contents), contents, reply)
      ensures failures == old(failures) + if reply.Lost? then 1 else 0
    {
      var applied: bool := *;
      var replied: bool := *;
      reply := if !applied || !replied then Lost else if contents.Absent? then Missing else Done;
      if applied {
        contents := Absent;
      }
      Note(reply.Lost?);
    }

    method Inspect() returns (reply: Reply)
      modifies this`failures
      ensures InspectCall(contents, contents, reply)
      ensures failures == old(failures) + if reply.Lost? then 1 else 0
    {
      var replied: bool := *;
      reply := if !replied then Lost else if contents.Absent? then Missing else Done;
      Note(reply.Lost?);
    }

    method Create() returns (reply: Reply)
      modifies this
      ensures CreateCall(old(contents), contents, reply)
      ensures failures == old(failures) + if reply.Done? then 0 else 1
    {
      var applied: bool := *;
      var replied: bool := *;
      if applied && contents.Absent? {
        contents := Partial;
      }
      reply := if applied && replied then Done else Lost;
      Note(!reply.Done?);
    }

    method Populate() returns (reply: Reply)
      modifies this
      ensures PopulateCall(old(contents), contents, reply)
      ensures failures == old(failures) + if reply.Done? then 0 else 1
    {
      var filled: bool := *;
      var replied: bool := *;
      if filled && !contents.Absent? {
        contents := Complete;
      }
      reply := if contents.Complete? && replied then Done else Lost;
      Note(!reply.Done?);
    }

    ghost method Note(failed: bool)
      modifies this`failures
      ensures failures == old(failures) + if failed then 1 else 0
    {
      if failed {
        failures := failures + 1;
      }
    }
  }

  /** Each cell comes from the one before by a step of the task. */
  predicate Steps(cells: seq<Cell>) {
    |cells| > 0 && forall i :: 0 <= i < |cells| - 1 ==> LocalStep(cells[i], cells[i + 1])
  }

  lemma OneMore(cells: seq<Cell>, next: Cell) returns (longer: seq<Cell>)
    requires Steps(cells) && LocalStep(cells[|cells| - 1], next)
    ensures Steps(longer) && longer[0] == cells[0] && longer[|longer| - 1] == next
  {
    longer := cells + [next];
  }

  /** `prepareSidecarVolume` between acquiring and releasing the gate. */
  class VolumeState {
    var dirty: bool
    const engine: Engine

    constructor (engine: Engine)
      ensures this.engine == engine && !dirty
    {
      this.engine := engine;
      dirty := false;
    }

    predicate Valid()
      reads this, engine
    {
      dirty || !engine.contents.Partial?
    }

    /** What the task sees, at this stage. */
    function At(stage: Stage): (c: Cell)
      reads this, engine
    {
      Cell(stage, true, dirty, engine.contents)
    }

    method RemoveIncomplete() returns (ok: bool, ghost reply: Reply)
      modifies engine
      ensures ok ==> engine.contents.Absent? && engine.failures == old(engine.failures)
      ensures !ok ==> engine.failures > old(engine.failures)
      ensures engine.contents == old(engine.contents) || engine.contents.Absent?
      ensures RemoveCall(old(engine.contents), engine.contents, reply) && (ok <==> !reply.Lost?)
    {
      var removal := engine.Remove();
      return !removal.Lost?, removal;
    }

    /** Keeps the cache trustworthy on every path. Succeeds exactly if every engine call did,
        and only with a complete volume; a volume that was complete and not dirty is left as
        it is; a failure leaves either a volume known to be whole or absent, or the dirty
        mark. The path it takes is one of the task's steps, from the entry to the exit with
        this result. */
    method Prepare() returns (ok: bool, ghost path: seq<Cell>)
      requires Valid()
      modifies this, engine
      ensures Valid()
      ensures ok ==> engine.contents.Complete? && !dirty
      ensures old(!dirty && engine.contents.Complete?) ==> engine.contents.Complete? && !dirty
      ensures engine.contents.Partial? ==> dirty
      ensures ok <==> engine.failures == old(engine.failures)
      ensures Steps(path) && path[0] == old(At(Entered)) && path[|path| - 1] == At(Leaving(ok))
    {
      path := [At(Entered)];
      if dirty {
        path := OneMore(path, At(RemoveSent));
        var removed;
        ghost var reply;
        removed, reply := RemoveIncomplete();
        path := OneMore(path, At(RemoveAnswered(reply)));
        if !removed {
          path := OneMore(path, At(Leaving(false)));
          return false, path;
        }
        dirty := false;
      }
      path := OneMore(path, At(Clean));
      path := OneMore(path, At(InspectSent));
      var found := engine.Inspect();
      path := OneMore(path, At(InspectAnswered(found)));
      if found.Done? {
        path := OneMore(path, At(Leaving(true)));
        return true, path;
      }
      if found.Lost? {
        path := OneMore(path, At(Leaving(false)));
        return false, path;
      }
      dirty := true;
      path := OneMore(path, At(Marked));
      ok, path := Fill(path);
    }

    /** Creates and populates the volume, which is marked as dirty. */
    method Fill(ghost before: seq<Cell>) returns (ok: bool, ghost path: seq<Cell>)
      requires dirty && Steps(before) && before[|before| - 1] == At(Marked)
      modifies this, engine
      ensures Valid()
      ensures ok ==> engine.contents.Complete? && !dirty
      ensures ok <==> engine.failures == old(engine.failures)
      ensures engine.failures >= old(engine.failures)
      ensures Steps(path) && path[0] == before[0] && path[|path| - 1] == At(Leaving(ok))
    {
      path := OneMore(before, At(CreateSent));
      var created := engine.Create();
      path := OneMore(path, At(CreateAnswered(created)));
      if !created.Done? {
        path := OneMore(path, At(Leaving(false)));
        return false, path;
      }
      path := OneMore(path, At(Populating));
      var populated := engine.Populate();
      path := OneMore(path, At(PopulateAnswered(populated)));
      if !populated.Done? {
        path := OneMore(path, At(CleanupSent));
        var removed;
        ghost var reply;
        removed, reply := RemoveIncomplete();
        path := OneMore(path, At(CleanupAnswered(reply)));
        if removed {
          dirty := false;
        }
        path := OneMore(path, At(Leaving(false)));
        return false, path;
      }
      dirty := false;
      path := OneMore(path, At(Leaving(true)));
      return true, path;
    }
  }
}
