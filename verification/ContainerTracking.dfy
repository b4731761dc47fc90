/** Which container of which execution may still be running, as the Docker backend tracks
    it. Engine replies may be lost after a call took effect, other executions work at the
    same time, and containers may stop or disappear by themselves. */
module ContainerTracking {

  datatype Execution = Execution(taskId: string, executionId: string)

  /** A tracking entry: the identifier of the container, or that the outcome of its
      creation is not known (the empty string of the source). */
  datatype Entry = UnknownOutcome | Known(id: nat)

  /** The engine's truth: who every container ever created belongs to, and which of them
      exist and run now. Identifiers are never used again. */
  datatype Containers = Containers(owners: map<nat, Execution>, present: set<nat>, running: set<nat>, serial: nat)

  predicate WellFormed(c: Containers) {
    && c.running <= c.present
    && (forall id :: id in c.present ==> id in c.owners)
    && (forall id :: id in c.owners ==> id < c.serial)
  }

  function RunningOf(c: Containers, k: Execution): (ids: set<nat>) {
    set id | id in c.running && id in c.owners && c.owners[id] == k
  }

  /** The tracking entry of the owner accounts for this container: it names the container,
      or it records that the creation outcome is unknown. */
  predicate Accounted(tracked: map<Execution, Entry>, owner: Execution, id: nat) {
    owner in tracked && (tracked[owner] == Known(id) || tracked[owner].UnknownOutcome?)
  }

  /** An entry names a container of its own execution. */
  predicate EntriesBelong(tracked: map<Execution, Entry>, c: Containers) {
    forall k :: k in tracked && tracked[k].Known? ==> tracked[k].id in c.owners && c.owners[tracked[k].id] == k
  }

  /** Every running container is accounted for by its owner's entry, or its entry was
      overwritten by a later run of the same execution. */
  predicate Covered(tracked: map<Execution, Entry>, c: Containers, orphans: set<nat>) {
    && WellFormed(c) && EntriesBelong(tracked, c)
    && (forall id :: id in orphans ==> id in c.owners)
    && (forall id :: id in c.running ==> id in orphans || Accounted(tracked, c.owners[id], id))
  }

  /** What everyone else may do while somebody works on execution `k`: its entry stays, it
      gains no container, none of its containers starts, and none becomes an orphan. */
  predicate Quiet(k: Execution, t: map<Execution, Entry>, c: Containers, o: set<nat>, t': map<Execution, Entry>, c': Containers, o': set<nat>) {
    && QuietEngine(k, t, c, t', c')
    && (forall id :: id in c'.owners && c'.owners[id] == k ==> (id in o' <==> id in o))
  }

  predicate QuietEngine(k: Execution, t: map<Execution, Entry>, c: Containers, t': map<Execution, Entry>, c': Containers) {
    && (k in t' <==> k in t)
    && (k in t ==> t'[k] == t[k])
    && c.owners.Keys <= c'.owners.Keys
    && (forall id :: id in c.owners ==> c'.owners[id] == c.owners[id])
    && (forall id :: id in c'.owners && id !in c.owners ==> c'.owners[id] != k)
    && (forall id :: id in c'.running && id in c'.owners && c'.owners[id] == k ==> id in c.running)
    && (forall id :: id in c'.present && id in c'.owners && c'.owners[id] == k ==> id in c.present)
  }

  datatype CreateReply = Created(id: nat) | Rejected | CreateUnknown
  datatype RemoveReply = Removed | RemoveMissing | RemoveUnknown
  datatype WaitReply = WaitFailed | WaitClosed | Exited(code: int, statusError: bool)

  /** An engine call and its reply. */
  datatype Call =
    | Create(created: CreateReply)
    | Start(id: nat, ok: bool)
    | Wait(id: nat, waited: WaitReply)
    | Remove(id: nat, removed: RemoveReply)

  datatype Outcome = Completed | NotPrepared | CreateFailed | StartFailed | WaitError | NonZeroExit(code: int)

  /** The calls that run a created container, and the outcome their replies call for: only
      an exit with status zero, or a wait that ends without a status, completes. */
  predicate RunCalls(calls: seq<Call>, id: nat, res: Outcome) {
    || (calls == [Start(id, false)] && res == StartFailed)
    || (&& |calls| == 2 && calls[0] == Start(id, true) && calls[1].Wait? && calls[1].id == id
        && (res.WaitError? <==> calls[1].waited.WaitFailed?)
        && (res.Completed? <==> calls[1].waited.WaitClosed? || (calls[1].waited.Exited? && calls[1].waited.code == 0))
        && (res.NonZeroExit? <==> calls[1].waited.Exited? && calls[1].waited.code != 0)
        && (res.NonZeroExit? ==> res.code == calls[1].waited.code))
  }

  /** The container was seen to have exited without an error. */
  predicate SeenExited(calls: seq<Call>) {
    |calls| == 2 && calls[1].Wait? && calls[1].waited.Exited? && !calls[1].waited.statusError
  }

  /** Whether the execution is still tracked after these calls: until the creation is known
      to have failed, the container to be removed, or, without cleanup, to have exited. */
  predicate StaysTracked(calls: seq<Call>, noCleanup: bool) {
    && |calls| > 0 && calls[0].Create? && !calls[0].created.Rejected?
    && (calls[0].created.Created? ==>
          if noCleanup then !SeenExited(calls[1..])
          else calls[|calls| - 1].Remove? && calls[|calls| - 1].removed.RemoveUnknown?)
  }

  /** The calls of one execution: nothing unless it was prepared, then a creation, and if
      that is known to have succeeded the run, and a removal exactly with cleanup. */
  predicate ExecuteCalls(calls: seq<Call>, prepared: bool, noCleanup: bool, res: Outcome) {
    if !prepared then calls == [] && res == NotPrepared
    else
      && |calls| > 0 && calls[0].Create?
      && if !calls[0].created.Created? then |calls| == 1 && res == CreateFailed
         else ContainerCalls(calls[1..], calls[0].created.id, noCleanup, res)
  }

  predicate ContainerCalls(calls: seq<Call>, id: nat, noCleanup: bool, res: Outcome) {
    if noCleanup then RunCalls(calls, id, res)
    else |calls| > 0 && RunCalls(calls[..|calls| - 1], id, res) && calls[|calls| - 1].Remove? && calls[|calls| - 1].id == id
  }

  lemma CallsJoin(first: Call, calls: seq<Call>, last: Call)
    ensures ([first] + calls)[1..] == calls && (calls + [last])[..|calls|] == calls
  {
  }

  // ---------- what each call does to the engine, on values ----------

  function AfterCreate(c: Containers, k: Execution, id: nat): Containers {
    c.(owners := c.owners[id := k], present := c.present + {id}, serial := id + 1)
  }

  function AfterStart(c: Containers, id: nat): Containers {
    c.(running := c.running + {id})
  }

  function AfterRemove(c: Containers, id: nat): Containers {
    c.(present := c.present - {id}, running := c.running - {id})
  }

  /** A container that was just created does not run yet. */
  lemma CreateCovered(t: map<Execution, Entry>, c: Containers, o: set<nat>, k: Execution)
    requires Covered(t, c, o)
    ensures Covered(t, AfterCreate(c, k, c.serial), o)
    ensures forall id :: id in c.owners ==> AfterCreate(c, k, c.serial).owners[id] == c.owners[id]
    ensures c.serial !in o && c.serial !in c.running
  {
    var d := AfterCreate(c, k, c.serial);
    forall id | id in d.running ensures id in o || Accounted(t, d.owners[id], id) {
      assert id in c.running && d.owners[id] == c.owners[id];
    }
  }

  /** The worker's own actions for one execution are quiet for every other, so the
      executions may interleave in any order. */
  lemma OwnActionsAreQuiet(j: Execution, k: Execution, t: map<Execution, Entry>, c: Containers, o: set<nat>, id: nat, entry: Entry)
    requires j != k && WellFormed(c) && Covered(t, c, o)
    ensures Quiet(k, t, c, o, t[j := entry], c, o + RunningOf(c, j))
    ensures Quiet(k, t, c, o, t - {j}, c, o)
    ensures id == c.serial ==> Quiet(k, t, c, o, t, AfterCreate(c, j, id), o)
    ensures id in c.owners && c.owners[id] == j ==> Quiet(k, t, c, o, t, AfterStart(c, id), o)
    ensures id in c.owners && c.owners[id] == j ==> Quiet(k, t, c, o, t, AfterRemove(c, id), o)
  {
  }

  /** When a second run of an execution loses a container: overwriting the entry and then
      withdrawing it, as a rejected creation does, keeps everything accounted for exactly
      if nothing of the execution was running, apart from what was lost before. */
  lemma RerunLosesContainer(k: Execution, t: map<Execution, Entry>, c: Containers, o: set<nat>)
    requires Covered(t, c, o)
    ensures Covered(t[k := UnknownOutcome] - {k}, c, o) <==> RunningOf(c, k) <= o
  {
    var t' := t[k := UnknownOutcome] - {k};
    if RunningOf(c, k) <= o {
      forall id | id in c.running ensures id in o || Accounted(t', c.owners[id], id) {
        assert c.owners[id] == k ==> id in RunningOf(c, k);
      }
    } else {
      var id :| id in RunningOf(c, k) && id !in o;
      assert !Accounted(t', c.owners[id], id);
    }
  }

  /** Such a state: the removal of the first container failed and it runs on. */
  lemma RerunCanLose(k: Execution)
    ensures
      var c := Containers(map[0 := k], {0}, {0}, 1);
      var t := map[k := Known(0)];
      Covered(t, c, {}) && !Covered(t[k := UnknownOutcome] - {k}, c, {})
  {
    var c := Containers(map[0 := k], {0}, {0}, 1);
    assert 0 in RunningOf(c, k);
  }

  class DockerBackend {
    var taskContainers: map<Execution, Entry>
    var engine: Containers
    /** Containers that ran when their execution's entry was overwritten. */
    ghost var orphans: set<nat>
    /** What the caller at hand has asked of the engine, and the replies. */
    ghost var calls: seq<Call>
    const noCleanup: bool

    constructor (noCleanup: bool)
      ensures Valid() && taskContainers == map[] && engine == Containers(map[], {}, {}, 0) && orphans == {} && calls == [] && this.noCleanup == noCleanup
    {
      taskContainers, engine, orphans, calls := map[], Containers(map[], {}, {}, 0), {}, [];
      this.noCleanup := noCleanup;
    }

    ghost predicate Valid()
      reads this
    {
      Covered(taskContainers, engine, orphans)
    }

    twostate predicate QuietFor(k: Execution)
      reads this
    {
      Quiet(k, old(taskContainers), old(engine), old(orphans), taskContainers, engine, orphans)
    }

    /** Other executions act, and containers stop or vanish. */
    method Interfere(k: Execution)
      requires Valid()
      modifies this`taskContainers, this`engine, this`orphans
      ensures Valid() && QuietFor(k)
    {
      var t, c :| WellFormed(c) && EntriesBelong(t, c) && QuietEngine(k, taskContainers, engine, t, c);
      assert WellFormed(c) && QuietEngine(k, taskContainers, engine, t, c);
      // Whatever the others lost track of are their orphans.
      ghost var lost := set id | id in c.running && id in c.owners && c.owners[id] != k && !Accounted(t, c.owners[id], id);
      forall id | id in c.running ensures id in orphans + lost || Accounted(t, c.owners[id], id) {
        if c.owners[id] == k {
          assert id in engine.running && engine.owners[id] == k;
        }
      }
      taskContainers, engine, orphans := t, c, orphans + lost;
    }

    /** Besides orphans, nothing of `k` is running but what the entry names. */
    ghost predicate Only(k: Execution, entry: Entry)
      reads this
    {
      forall id :: id in engine.running && id in engine.owners && engine.owners[id] == k ==> id in orphans || entry == Known(id)
    }

    /** No container of `k` exists but what the entry names. */
    predicate Lone(k: Execution, entry: Entry)
      reads this
    {
      forall id :: id in engine.present && id in engine.owners && engine.owners[id] == k ==> entry == Known(id)
    }

    /** No container of `k` exists that its entry does not account for. */
    predicate Cleared(k: Execution)
      reads this
    {
      && (k !in taskContainers ==> Lone(k, UnknownOutcome))
      && (k in taskContainers && taskContainers[k].Known? ==> Lone(k, taskContainers[k]))
    }

    /** The containers of `k` that exist did so before, except the one named. */
    twostate predicate PresentWithin(k: Execution, extra: Entry)
      reads this
    {
      forall id :: id in engine.present && Belongs(id, k) ==> (id in old(engine.present) && old(Belongs(id, k))) || extra == Known(id)
    }

    /** No orphan belongs to `k`. */
    ghost predicate NoOrphans(k: Execution)
      reads this
    {
      forall id :: id in orphans && id in engine.owners ==> engine.owners[id] != k
    }

    /** The same containers of `k` are orphans as before. */
    twostate predicate SameOrphans(k: Execution)
      reads this
    {
      forall id :: id in orphans && id in engine.owners && engine.owners[id] == k <==>
        id in old(orphans) && id in old(engine.owners) && old(engine.owners)[id] == k
    }

    /** New orphans of `k` are containers of it that ran before. */
    twostate predicate OrphansWereRunning(k: Execution)
      reads this
    {
      forall id :: id in orphans && Belongs(id, k) ==> id in old(orphans) || id in old(engine.running)
    }

    predicate NothingRuns(k: Execution)
      reads this
    {
      forall id :: id in engine.running && id in engine.owners ==> engine.owners[id] != k
    }

    /** `id` names a container of `k`. */
    predicate Belongs(id: nat, k: Execution)
      reads this
    {
      id in engine.owners && engine.owners[id] == k
    }

    /** An engine call for `k` went by, with everything that happened meanwhile:
        the entry and the orphans of `k` are as before. */
    twostate predicate Passed(k: Execution, entry: Entry)
      reads this
    {
      && Valid() && Only(k, entry)
      && (k in taskContainers <==> k in old(taskContainers))
      && (k in taskContainers ==> taskContainers[k] == old(taskContainers)[k])
      && SameOrphans(k)
      && (forall id :: old(Belongs(id, k)) ==> Belongs(id, k))
    }

    // ---------- engine calls ----------

    /** A rejection proves that no container was created; any other failure leaves it
        open. */
    method ContainerCreate(k: Execution) returns (reply: CreateReply)
      requires Valid() && Only(k, UnknownOutcome) && k in taskContainers && taskContainers[k].UnknownOutcome?
      modifies this
      ensures Passed(k, UnknownOutcome) && calls == old(calls) + [Create(reply)]
      ensures reply.Created? ==> Belongs(reply.id, k) && PresentWithin(k, Known(reply.id))
      ensures reply.Rejected? ==> PresentWithin(k, UnknownOutcome)
    {
      Interfere(k);
      var created: bool := *;
      if created {
        var id := engine.serial;
        CreateCovered(taskContainers, engine, orphans, k);
        engine := AfterCreate(engine, k, id);
        var replied: bool := *;
        reply := if replied then Created(id) else CreateUnknown;
      } else {
        var rejected: bool := *;
        reply := if rejected then Rejected else CreateUnknown;
      }
      calls := calls + [Create(reply)];
    }

    method ContainerStart(k: Execution, id: nat) returns (ok: bool)
      requires Valid() && Only(k, Known(id)) && Belongs(id, k) && k in taskContainers && taskContainers[k] == Known(id)
      modifies this
      ensures Passed(k, Known(id)) && PresentWithin(k, UnknownOutcome) && calls == old(calls) + [Start(id, ok)]
    {
      Interfere(k);
      ok := false;
      var started: bool := *;
      if started && id in engine.present {
        engine := AfterStart(engine, id);
        // The reply may be lost although the container started.
        ok := *;
      }
      calls := calls + [Start(id, ok)];
    }

    /** A status without an error of its own is delivered only for a stopped container. */
    method ContainerWait(k: Execution, id: nat) returns (reply: WaitReply)
      requires Valid() && Only(k, Known(id)) && Belongs(id, k)
      modifies this
      ensures Passed(k, Known(id)) && PresentWithin(k, UnknownOutcome) && calls == old(calls) + [Wait(id, reply)]
      ensures reply.Exited? && !reply.statusError ==> id !in engine.running
    {
      Interfere(k);
      reply :| reply.Exited? && !reply.statusError ==> id !in engine.running;
      calls := calls + [Wait(id, reply)];
    }

    /** Forced removal; its effect comes before its reply. */
    method ContainerRemove(k: Execution, id: nat) returns (reply: RemoveReply)
      requires Valid() && Only(k, Known(id)) && Belongs(id, k)
      modifies this
      ensures Passed(k, Known(id)) && PresentWithin(k, UnknownOutcome) && calls == old(calls) + [Remove(id, reply)]
      ensures !reply.RemoveUnknown? ==> id !in engine.running && id !in engine.present
    {
      Interfere(k);
      reply := RemoveUnknown;
      var acted: bool := *;
      if acted {
        var existed := id in engine.present;
        engine := AfterRemove(engine, id);
        var replied: bool := *;
        reply := if !replied then RemoveUnknown else if existed then Removed else RemoveMissing;
      }
      calls := calls + [Remove(id, reply)];
    }

    // ---------- one execution ----------

    /** Everything that runs for `k` is an orphan, or its entry accounts for it, so `Valid`
        is kept on every path; orphans arise exactly when something of the execution was
        still running, which it is not when the execution was untracked. With cleanup on,
        the entry also accounts for every container that exists. `did` lists the calls, and
        the outcome is the one their replies call for. */
    method ExecuteTask(k: Execution, prepared: bool) returns (res: Outcome, ghost did: seq<Call>)
      requires Valid()
      modifies this
      ensures Valid()
      ensures OrphansWereRunning(k)
      ensures SameOrphans(k) <==> !prepared || old(Only(k, UnknownOutcome))
      ensures old(k !in taskContainers) ==> SameOrphans(k)
      ensures res.NotPrepared? ==> taskContainers == old(taskContainers)
      ensures res.CreateFailed? && k in taskContainers ==> taskContainers[k].UnknownOutcome?
      ensures res.Completed? || res.StartFailed? || res.WaitError? || res.NonZeroExit? ==>
                k !in taskContainers || taskContainers[k].Known?
      ensures k !in taskContainers ==> Only(k, UnknownOutcome)
      ensures !noCleanup && old(Lone(k, UnknownOutcome)) ==> Cleared(k)
      ensures calls == old(calls) + did && ExecuteCalls(did, prepared, noCleanup, res)
      ensures prepared ==> (k in taskContainers <==> StaysTracked(did, noCleanup))
    {
      if !prepared {
        return NotPrepared, [];
      }
      var reply := CreateTracked(k);
      did := [Create(reply)];
      if !reply.Created? {
        return CreateFailed, did;
      }
      ghost var rest: seq<Call>;
      res, rest := RunAndCleanUp(k, reply.id);
      CallsJoin(Create(reply), rest, Create(reply));
      did := did + rest;
    }

    method RunAndCleanUp(k: Execution, id: nat) returns (res: Outcome, ghost did: seq<Call>)
      requires Valid() && Only(k, Known(id)) && Belongs(id, k) && k in taskContainers && taskContainers[k] == Known(id)
      modifies this
      ensures Valid() && SameOrphans(k) && !res.NotPrepared? && !res.CreateFailed?
      ensures k in taskContainers ==> taskContainers[k] == Known(id)
      ensures k !in taskContainers ==> Only(k, UnknownOutcome)
      ensures forall other :: old(Belongs(other, k)) ==> Belongs(other, k)
      ensures !noCleanup && old(Lone(k, Known(id))) ==> Cleared(k)
      ensures calls == old(calls) + did && ContainerCalls(did, id, noCleanup, res)
      ensures k in taskContainers <==> if noCleanup then !SeenExited(did) else did[|did| - 1].removed.RemoveUnknown?
    {
      res, did := RunContainer(k, id);
      if !noCleanup {
        var removal := CleanUp(k, id);
        CallsJoin(Remove(id, removal), did, Remove(id, removal));
        did := did + [Remove(id, removal)];
      }
    }

    /** The entry is written before the creation is asked for, and withdrawn only when the
        reply proves that nothing was created. */
    method CreateTracked(k: Execution) returns (reply: CreateReply)
      requires Valid()
      modifies this
      ensures Valid() && calls == old(calls) + [Create(reply)]
      ensures OrphansWereRunning(k)
      ensures SameOrphans(k) <==> old(Only(k, UnknownOutcome))
      ensures match reply
              case Created(id) => k in taskContainers && taskContainers[k] == Known(id) && Belongs(id, k) && Only(k, Known(id))
              case Rejected => k !in taskContainers && Only(k, UnknownOutcome)
              case CreateUnknown => k in taskContainers && taskContainers[k].UnknownOutcome?
      ensures old(Lone(k, UnknownOutcome)) ==> Cleared(k)
    {
      orphans := orphans + RunningOf(engine, k);
      taskContainers := taskContainers[k := UnknownOutcome];
      reply := ContainerCreate(k);
      match reply {
        case Created(id) => taskContainers := taskContainers[k := Known(id)];
        case Rejected => taskContainers := taskContainers - {k};
        case CreateUnknown =>
      }
    }

    method CleanUp(k: Execution, id: nat) returns (removal: RemoveReply)
      requires Valid() && Only(k, Known(id)) && Belongs(id, k)
      requires k in taskContainers && taskContainers[k] == Known(id)
      modifies this
      ensures Valid() && SameOrphans(k) && (forall other :: old(Belongs(other, k)) ==> Belongs(other, k))
      ensures calls == old(calls) + [Remove(id, removal)]
      ensures k in taskContainers <==> removal.RemoveUnknown?
      ensures k in taskContainers ==> taskContainers[k] == Known(id)
      ensures k !in taskContainers ==> Only(k, UnknownOutcome)
      ensures old(Lone(k, Known(id))) ==> Cleared(k)
    {
      removal := ContainerRemove(k, id);
      if !removal.RemoveUnknown? {
        taskContainers := taskContainers - {k};
      }
    }

    method RunContainer(k: Execution, id: nat) returns (res: Outcome, ghost did: seq<Call>)
      requires Valid() && Only(k, Known(id)) && Belongs(id, k) && k in taskContainers && taskContainers[k] == Known(id)
      modifies this
      ensures Valid() && Only(k, Known(id)) && SameOrphans(k) && (forall other :: old(Belongs(other, k)) ==> Belongs(other, k))
      ensures k in taskContainers ==> taskContainers[k] == Known(id)
      ensures k !in taskContainers ==> noCleanup && id !in engine.running
      ensures k in taskContainers <==> !(noCleanup && SeenExited(did))
      ensures old(Lone(k, Known(id))) ==> Lone(k, Known(id))
      ensures calls == old(calls) + did && RunCalls(did, id, res)
    {
      var started := ContainerStart(k, id);
      did := [Start(id, started)];
      if !started {
        return StartFailed, did;
      }
      var reply := ContainerWait(k, id);
      did := did + [Wait(id, reply)];
      match reply {
        case WaitFailed => return WaitError, did;
        case WaitClosed => return Completed, did;
        case Exited(code, statusError) =>
          if noCleanup && !statusError {
            taskContainers := taskContainers - {k};
          }
          return if code != 0 then NonZeroExit(code) else Completed, did;
      }
    }

    /** A nil cancellation of a task execution means that nothing of it is running, apart
        from orphans. It fails exactly if the creation outcome is unknown, or the removal it
        asks for is not confirmed. */
    method CancelTask(k: Execution, standby: bool) returns (ok: bool)
      requires Valid()
      modifies this
      ensures Valid() && SameOrphans(k)
      ensures ok && !standby ==> k !in taskContainers && Only(k, UnknownOutcome)
      ensures !standby && k in old(taskContainers) && old(taskContainers)[k].UnknownOutcome? ==> !ok && calls == old(calls)
      ensures !standby && k in old(taskContainers) && old(taskContainers)[k].Known? ==>
                |calls| == |old(calls)| + 1 && old(calls) <= calls && calls[|old(calls)|].Remove?
                && calls[|old(calls)|].id == old(taskContainers)[k].id && (ok <==> !calls[|old(calls)|].removed.RemoveUnknown?)
      ensures !standby && k !in old(taskContainers) ==> ok && calls == old(calls)
      ensures !ok || standby ==> (k in taskContainers <==> k in old(taskContainers))
      ensures old(Cleared(k)) ==> Cleared(k)
      ensures standby ==> ok && unchanged(this)
    {
      if standby {
        return true;
      }
      if k !in taskContainers {
        return true;
      }
      var entry := taskContainers[k];
      if entry.UnknownOutcome? {
        return false;
      }
      var id := entry.id;
      var removal := ContainerRemove(k, id);
      if removal.RemoveUnknown? {
        return false;
      }
      taskContainers := taskContainers - {k};
      return true;
    }

    predicate NothingExists(k: Execution)
      reads this
    {
      forall id :: id in engine.present && id in engine.owners ==> engine.owners[id] != k
    }

    /** The tracking law for an execution that runs once: whatever the engine answered, and
        however often cancellation failed before, a nil cancellation after the run means
        that no container of the execution is running, and with cleanup on that none is left. */
    method RunOnceThenCancel(k: Execution, prepared: bool, attempts: nat) returns (ok: bool)
      requires Valid() && k !in taskContainers && NoOrphans(k)
      modifies this
      ensures Valid()
      ensures ok ==> NothingRuns(k)
      ensures ok && !noCleanup && old(NothingExists(k)) ==> NothingExists(k)
    {
      ghost var first := !noCleanup && NothingExists(k);
      var _, _ := ExecuteTask(k, prepared);
      ok := false;
      var n := 0;
      while n < attempts && !ok
        invariant Valid() && NoOrphans(k) && (first ==> Cleared(k))
        invariant ok ==> NothingRuns(k) && (first ==> NothingExists(k))
      {
        Interfere(k);
        ok := CancelTask(k, false);
        n := n + 1;
      }
    }
  }
}
