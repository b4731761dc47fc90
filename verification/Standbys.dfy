/** The standby fields of the worker and the critical sections that update them in place.
    Each method is proved to take the step of the interleaving protocol that it stands
    for, from any protocol state that the fields represent. */
module Standbys {
  import opened Sequences
  import opened ReplayCache
  import opened WorkerState
  import WorkerProtocol
  import opened StandbyProtocol

  datatype CreateReply = InvalidID | Known | AtShutdown | OneShotWorker | Unsupported | AtPrewarmLimit | AtConcurrencyLimit | Accepted

  /** The exit map and the list that bounds it name the same sandboxes. */
  ghost predicate ExitsAgree(exits: Cache<SandboxID, ()>) {
    && (forall id :: id in exits.entries <==> id in exits.order)
    && NoDuplicates(exits.order) && |exits.order| <= CACHE_SIZE
  }

  /** Every listed sandbox has a context of its own. */
  ghost predicate ContextsAgree(standbys: map<SandboxID, nat>, causes: map<nat, Cause>, next: nat) {
    && (forall id :: id in standbys ==> standbys[id] in causes)
    && (forall t :: t in causes ==> t < next)
    && (forall a, b :: a in standbys && b in standbys && standbys[a] == standbys[b] ==> a == b)
  }

  class StandbyRegistry {
    const cfg: Config
    var standbys: map<SandboxID, nat>
    var causes: map<nat, Cause>
    var sources: map<nat, Source>
    var standbyExits: map<SandboxID, ()>
    var standbyExitIDs: seq<SandboxID>
    var shuttingDown: bool
    var ctxDone: bool
    var slotsHeld: int
    var taskWG: int
    var nextId: nat

    constructor (cfg: Config)
      ensures Valid() && Represents(InitStandbys()) && this.cfg == cfg && !shuttingDown && !ctxDone
    {
      this.cfg := cfg;
      standbys, causes, sources, standbyExits, standbyExitIDs := map[], map[], map[], map[], [];
      shuttingDown, ctxDone, slotsHeld, taskWG, nextId := false, false, 0, 0, 0;
    }

    function Now(): Gate
      reads this
    {
      WorkerProtocol.Gate(shuttingDown, ctxDone)
    }

    function Exits(): Cache<SandboxID, ()>
      reads this
    {
      Cache(standbyExits, standbyExitIDs)
    }

    ghost predicate Valid()
      reads this
    {
      ExitsAgree(Exits()) && ContextsAgree(standbys, causes, nextId)
    }

    /** The fields are the guarded part of this protocol state. */
    ghost predicate Represents(ss: StandbySide)
      reads this
    {
      && ss.sandboxes == standbys && ss.causes == causes && ss.sources == sources
      && ss.exits == Exits() && ss.next == nextId
    }

    /** The semaphore that pays for standbys: their own, or else the one of the tasks. */
    function Limit(): nat {
      if cfg.standbyLimit > 0 then cfg.standbyLimit else cfg.taskLimit
    }

    predicate Free()
      reads this
    {
      Limit() == 0 || slotsHeld < Limit()
    }

    method AdmitStandbyLocked() returns (reply: CreateReply)
      modifies this`slotsHeld
      ensures reply.Accepted? <==> !shuttingDown && !ctxDone && !cfg.oneShot && cfg.supportsStandbys && old(Free())
      ensures reply.AtShutdown? <==> shuttingDown || ctxDone
      ensures reply.OneShotWorker? <==> !shuttingDown && !ctxDone && cfg.oneShot
      ensures reply.Unsupported? <==> !shuttingDown && !ctxDone && !cfg.oneShot && !cfg.supportsStandbys
      ensures reply.AtPrewarmLimit? ==> cfg.standbyLimit > 0 && slotsHeld >= cfg.standbyLimit
      ensures reply.AtConcurrencyLimit? ==> cfg.standbyLimit == 0 && 0 < cfg.taskLimit <= slotsHeld
      ensures reply.Accepted? && cfg.standbyLimit > 0 ==> slotsHeld <= cfg.standbyLimit
      ensures reply.Accepted? && cfg.standbyLimit == 0 && cfg.taskLimit > 0 ==> slotsHeld <= cfg.taskLimit
      ensures slotsHeld == old(slotsHeld) + if reply.Accepted? && (cfg.standbyLimit > 0 || cfg.taskLimit > 0) then 1 else 0
      ensures !reply.InvalidID? && !reply.Known?
    {
      if shuttingDown || ctxDone {
        return AtShutdown;
      }
      if cfg.oneShot {
        return OneShotWorker;
      }
      if !cfg.supportsStandbys {
        return Unsupported;
      }
      if Limit() > 0 {
        if slotsHeld >= Limit() {
          return if cfg.standbyLimit > 0 then AtPrewarmLimit else AtConcurrencyLimit;
        }
        slotsHeld := slotsHeld + 1;
      }
      return Accepted;
    }

    /** Admits exactly when the protocol's creation step is enabled, and takes that step; a
        duplicate or a refused request changes nothing. */
    method HandlePrewarmCreate(id: SandboxID, validID: bool, ghost ss: StandbySide) returns (reply: CreateReply)
      requires Valid() && Represents(ss)
      modifies this`slotsHeld, this`standbys, this`causes, this`nextId, this`taskWG
      ensures Valid()
      ensures reply.InvalidID? <==> !validID
      ensures reply.Known? <==> validID && (id in old(standbys) || id in old(standbyExits))
      ensures reply.Accepted? <==>
                && validID && id !in old(standbys) && id !in old(standbyExits)
                && !shuttingDown && !ctxDone && !cfg.oneShot && cfg.supportsStandbys && old(Free())
      ensures Represents(if reply.Accepted? then ApplyStandby(cfg, Now(), old(Free()), ss, Create(id)) else ss)
      ensures taskWG == old(taskWG) + if reply.Accepted? then 1 else 0
      ensures slotsHeld == old(slotsHeld) + if reply.Accepted? && Limit() > 0 then 1 else 0
    {
      if !validID {
        return InvalidID;
      }
      if id in standbys || id in standbyExits {
        return Known;
      }
      reply := AdmitStandbyLocked();
      if !reply.Accepted? {
        return;
      }
      List(id);
      taskWG := taskWG + 1;
    }

    /** The new entry has a context of its own. */
    method List(id: SandboxID)
      requires ContextsAgree(standbys, causes, nextId) && id !in standbys
      modifies this`standbys, this`causes, this`nextId
      ensures ContextsAgree(standbys, causes, nextId)
      ensures standbys == old(standbys)[id := old(nextId)] && causes == old(causes)[old(nextId) := Live] && nextId == old(nextId) + 1
    {
      standbys := standbys[id := nextId];
      causes := causes[nextId := Live];
      nextId := nextId + 1;
    }

    /** The guarded half of `sendStandbyExit`: whoever adds the record sends the message. */
    method RecordStandbyExit(id: SandboxID) returns (send: bool)
      requires Valid()
      modifies this`standbyExits, this`standbyExitIDs
      ensures Valid() && send == (id !in old(standbyExits)) && id in standbyExits
      ensures Exits() == if send then Put(old(Exits()), id, ()) else old(Exits())
    {
      if id in standbyExits {
        return false;
      }
      ghost var before := Exits();
      standbyExits := standbyExits[id := ()];
      standbyExitIDs := standbyExitIDs + [id];
      if |standbyExitIDs| > CACHE_SIZE {
        standbyExits := standbyExits - {standbyExitIDs[0]};
        standbyExitIDs := standbyExitIDs[1..];
      }
      PutIsInsertThenEvict(before, id);
      return true;
    }

    /** The runner `t` records the exit of its own sandbox. */
    method ReportStandbyExit(id: SandboxID, ghost t: nat, ghost ss: StandbySide) returns (send: bool)
      requires Valid() && Represents(ss) && t in ss.threads && ss.threads[t] == StandbyThread(id, Reporting)
      modifies this`standbyExits, this`standbyExitIDs
      ensures send == (id !in old(standbyExits)) && id in standbyExits
      ensures Valid() && Represents(ApplyRun(ss, t, RecordExit))
      ensures send <==> ApplyRun(ss, t, RecordExit).threads[t].phase.ExitPending?
    {
      send := RecordStandbyExit(id);
    }

    /** The watcher's first critical section: only an exit that no local runner will report
        goes on. */
    method CheckWatchedExit(id: SandboxID, ghost w: nat, ghost ss: StandbySide) returns (goOn: bool)
      requires Represents(ss) && w in ss.watchers && ss.watchers[w] == Watcher(id, Noticed)
      ensures goOn <==> id !in standbys && !shuttingDown
      ensures Represents(ApplyWatch(Now(), ss, w, CheckLocal))
      ensures goOn <==> ApplyWatch(Now(), ss, w, CheckLocal).watchers[w].phase.NotLocal?
    {
      return !(id in standbys || shuttingDown);
    }

    method ReportWatchedExit(id: SandboxID, ghost w: nat, ghost ss: StandbySide) returns (send: bool)
      requires Valid() && Represents(ss) && w in ss.watchers && ss.watchers[w] == Watcher(id, NotLocal)
      modifies this`standbyExits, this`standbyExitIDs
      ensures send == (id !in old(standbyExits)) && id in standbyExits
      ensures Valid() && Represents(ApplyWatch(Now(), ss, w, RecordWatched))
      ensures send <==> ApplyWatch(Now(), ss, w, RecordWatched).watchers[w].phase.WatchPending?
    {
      send := RecordStandbyExit(id);
    }

    method Cancel(t: nat)
      requires Valid() && t in causes
      modifies this`causes
      ensures Valid() && causes == old(causes)[t := FirstCause(old(causes)[t], CancelCause)]
    {
      causes := causes[t := FirstCause(causes[t], CancelCause)];
    }

    /** `releaseStandby`: the context ends, the unit goes back, and the entry goes. */
    method ReleaseStandby(id: SandboxID, t: nat, ghost ss: StandbySide)
      requires Valid() && Represents(ss) && t in ss.threads && ss.threads[t] == StandbyThread(id, Leaving) && t in causes
      modifies this`causes, this`slotsHeld, this`standbys
      ensures Valid() && Represents(ApplyRun(ApplyRun(ss, t, ReturnUnit), t, DeleteEntry))
      ensures slotsHeld == old(slotsHeld) - if Limit() > 0 then 1 else 0
    {
      Cancel(t);
      if Limit() > 0 {
        slotsHeld := slotsHeld - 1;
      }
      standbys := standbys - {id};
    }

    /** The guarded half of `handlePrewarmDestroy`; an empty ID is ignored. */
    method HandlePrewarmDestroy(id: SandboxID, ghost ss: StandbySide)
      requires Valid() && Represents(ss)
      modifies this`sources, this`causes
      ensures Valid() && Represents(if id.text == "" then ss else ApplyDestroy(ss, id))
    {
      if id.text == "" {
        return;
      }
      if id in standbys {
        var t := standbys[id];
        if t !in sources || sources[t].NoSource? {
          sources := sources[t := UserSource];
        }
        assert sources == ApplyDestroy(ss, id).sources;
        Cancel(t);
      }
    }

    /** `stopStandbysLocked`: every listed standby is interrupted or cancelled, unless
        another cause was there first. */
    method StopStandbysLocked(ghost ss: StandbySide) returns (observers: set<nat>, count: nat)
      requires Valid() && Represents(ss)
      modifies this`causes, this`sources
      ensures Valid() && Represents(StopStandbys(cfg, ss))
      ensures AllEnded(cfg.preserves, standbys, old(causes), causes) && AllMarked(cfg.preserves, standbys, old(sources), sources)
      ensures observers == if cfg.preserves then standbys.Values else {}
      ensures count == |standbys|
    {
      observers := StopEach();
      count := |standbys|;
      StopStandbysIs(cfg, ss);
      StoppedAre(cfg, standbys, ss.causes, ss.sources, nextId);
    }

    method StopEach() returns (observers: set<nat>)
      requires ContextsAgree(standbys, causes, nextId)
      modifies this`causes, this`sources
      ensures ContextsAgree(standbys, causes, nextId)
      ensures StoppedSoFar(old(causes), old(sources), Stopped(standbys, {}), observers)
    {
      observers := {};
      var todo := standbys.Keys;
      NoneStopped(cfg, standbys, causes, sources);
      while todo != {}
        invariant todo <= standbys.Keys
        invariant StoppedSoFar(old(causes), old(sources), Stopped(standbys, todo), observers)
        decreases |todo|
      {
        todo, observers := StopNext(todo, old(causes), old(sources), observers);
      }
      StoppedContextsAgree(cfg, standbys, old(causes), nextId, Stopped(standbys, {}));
    }

    method StopNext(todo: set<SandboxID>, ghost c: map<nat, Cause>, ghost s: map<nat, Source>, before: set<nat>) returns (left: set<SandboxID>, observers: set<nat>)
      requires todo != {} && todo <= standbys.Keys && ContextsAgree(standbys, c, nextId)
      requires StoppedSoFar(c, s, Stopped(standbys, todo), before)
      modifies this`causes, this`sources
      ensures left <= standbys.Keys && |left| < |todo|
      ensures StoppedSoFar(c, s, Stopped(standbys, left), observers)
    {
      var id :| id in todo;
      StopsOneMore(standbys, todo, id);
      observers := StopOne(standbys[id], c, s, Stopped(standbys, todo), before);
      left := todo - {id};
    }

    /** Exactly the runners in `done` have been stopped, and their observers collected. */
    ghost predicate StoppedSoFar(c: map<nat, Cause>, s: map<nat, Source>, done: set<nat>, observers: set<nat>)
      reads this
    {
      && causes == StoppedCauses(cfg, c, done) && sources == StoppedSources(cfg, s, done)
      && observers == if cfg.preserves then done else {}
    }

    method StopOne(t: nat, ghost c: map<nat, Cause>, ghost s: map<nat, Source>, ghost done: set<nat>, before: set<nat>) returns (observers: set<nat>)
      requires t in c && t !in done && StoppedSoFar(c, s, done, before)
      modifies this`causes, this`sources
      ensures StoppedSoFar(c, s, done + {t}, observers)
    {
      if cfg.preserves {
        causes := causes[t := FirstCause(causes[t], InterruptCause)];
        return before + {t};
      }
      if t !in sources || sources[t].NoSource? {
        sources := sources[t := ShutdownSource];
      }
      causes := causes[t := FirstCause(causes[t], CancelCause)];
      return before;
    }
  }

  lemma NoneStopped(cfg: Config, standbys: map<SandboxID, nat>, causes: map<nat, Cause>, sources: map<nat, Source>)
    ensures Stopped(standbys, standbys.Keys) == {}
    ensures StoppedCauses(cfg, causes, {}) == causes && StoppedSources(cfg, sources, {}) == sources
  {
  }

  /** Inserting and then evicting the oldest is what recording means. */
  lemma PutIsInsertThenEvict(c: Cache<SandboxID, ()>, id: SandboxID)
    requires ExitsAgree(c) && id !in c.entries
    ensures ExitsAgree(Put(c, id, ()))
    ensures
      var order := c.order + [id];
      Put(c, id, ()) == if |order| > CACHE_SIZE then Cache(c.entries[id := ()] - {order[0]}, order[1..]) else Cache(c.entries[id := ()], order)
  {
    var order := c.order + [id];
    PutEntries(c, id, ());
    assert NoDuplicates(order);
    if |order| > CACHE_SIZE {
      assert order[0] == c.order[0] && order[0] in c.entries;
      assert (c.entries - {order[0]})[id := ()] == c.entries[id := ()] - {order[0]};
    }
  }

  /** The protocol's invariant is enough for the class invariant. */
  lemma ProtocolKeepsFields(cfg: Config, gate: Gate, ss: StandbySide)
    requires StandbyOK(cfg, gate, ss)
    ensures ExitsAgree(ss.exits) && ContextsAgree(ss.sandboxes, ss.causes, ss.next)
  {
    NewestDistinct(ss.history);
  }

  /** The runners already dealt with. */
  function Stopped(standbys: map<SandboxID, nat>, todo: set<SandboxID>): set<nat> {
    set id | id in standbys && id !in todo :: standbys[id]
  }

  function StoppedCauses(cfg: Config, causes: map<nat, Cause>, stopped: set<nat>): map<nat, Cause> {
    map t | t in causes ::
      if t !in stopped then causes[t]
      else FirstCause(causes[t], if cfg.preserves then InterruptCause else CancelCause)
  }

  function StoppedSources(cfg: Config, sources: map<nat, Source>, stopped: set<nat>): map<nat, Source> {
    if cfg.preserves then sources
    else
      map t | t in sources.Keys + stopped ::
        if t in sources && (t !in stopped || !sources[t].NoSource?) then sources[t] else ShutdownSource
  }

  lemma StoppedContextsAgree(cfg: Config, standbys: map<SandboxID, nat>, causes: map<nat, Cause>, next: nat, stopped: set<nat>)
    requires ContextsAgree(standbys, causes, next)
    ensures ContextsAgree(standbys, StoppedCauses(cfg, causes, stopped), next)
  {
  }

  /** Every listed standby's context has ended: one that was still running was interrupted
      or cancelled, as the worker preserves its tasks or not. */
  ghost predicate AllEnded(preserves: bool, standbys: map<SandboxID, nat>, before: map<nat, Cause>, after: map<nat, Cause>) {
    && after.Keys == before.Keys
    && forall id :: id in standbys ==>
         && standbys[id] in before
         && after[standbys[id]] == if before[standbys[id]].Live? then (if preserves then InterruptCause else CancelCause) else before[standbys[id]]
  }

  /** Every listed standby has a source, its first one, unless the worker preserves its
      tasks; then none is touched. */
  ghost predicate AllMarked(preserves: bool, standbys: map<SandboxID, nat>, before: map<nat, Source>, after: map<nat, Source>) {
    && (preserves ==> after == before)
    && (!preserves ==> forall id :: id in standbys ==>
          && standbys[id] in after
          && after[standbys[id]] == if standbys[id] in before && !before[standbys[id]].NoSource? then before[standbys[id]] else ShutdownSource)
  }

  lemma StoppedAre(cfg: Config, standbys: map<SandboxID, nat>, causes: map<nat, Cause>, sources: map<nat, Source>, next: nat)
    requires ContextsAgree(standbys, causes, next)
    ensures AllEnded(cfg.preserves, standbys, causes, StoppedCauses(cfg, causes, Stopped(standbys, {})))
    ensures AllMarked(cfg.preserves, standbys, sources, StoppedSources(cfg, sources, Stopped(standbys, {})))
  {
    forall id | id in standbys ensures standbys[id] in Stopped(standbys, {}) {
    }
  }

  lemma StopStandbysIs(cfg: Config, ss: StandbySide)
    ensures Stopped(ss.sandboxes, {}) == ss.sandboxes.Values
    ensures StopStandbys(cfg, ss) ==
            ss.(causes := StoppedCauses(cfg, ss.causes, Stopped(ss.sandboxes, {})),
            sources := StoppedSources(cfg, ss.sources, Stopped(ss.sandboxes, {})))
  {
    assert Stopped(ss.sandboxes, {}) == set id | id in ss.sandboxes :: ss.sandboxes[id];
  }

  lemma StopsOneMore(standbys: map<SandboxID, nat>, todo: set<SandboxID>, id: SandboxID)
    requires id in todo && todo <= standbys.Keys
    requires forall a, b :: a in standbys && b in standbys && standbys[a] == standbys[b] ==> a == b
    ensures standbys[id] !in Stopped(standbys, todo)
    ensures Stopped(standbys, todo - {id}) == Stopped(standbys, todo) + {standbys[id]}
  {
  }
}
