/** The Kubernetes API server as the worker meets it: Jobs that other actors may
    change between any two calls, requests that may fail, and replies that may be
    lost after the request took effect. Every write takes a fresh revision. */
module JobApi {
  import opened Options

  datatype JobSpec = JobSpec(
    activeDeadlineSeconds: Option<int>,
    parallelism: Option<int>,
    suspended: bool,
    ttlSecondsAfterFinished: Option<int>,
    backoffLimit: Option<int>,
    hasPodFailurePolicy: bool)

  datatype Job = Job(uid: nat, version: nat, complete: bool, failed: bool, taskHash: string, executionHash: string, spec: JobSpec)

  datatype PodPhase = PodPending | PodRunning | PodSucceeded | PodFailed | PodUnknown

  datatype Pod = Pod(controllerUid: nat, controlledBy: Option<nat>, phase: PodPhase)

  datatype Cluster = Cluster(jobs: map<string, Job>, pods: seq<Pod>, revision: nat)

  datatype ApiError = NotFound | Conflict | Transient | Refused

  predicate Terminal(job: Job) {
    job.complete || job.failed
  }

  /** What the expiration patch asks for. It leaves the retention policy alone. */
  function Expired(spec: JobSpec): JobSpec {
    spec.(activeDeadlineSeconds := Some(1), parallelism := Some(0), suspended := false)
  }

  // ---------- how the server may change ----------

  predicate ValidCluster(c: Cluster) {
    forall n :: n in c.jobs ==> c.jobs[n].version <= c.revision
  }

  /** Anything may happen between two instants, but a Job that differs from before has
      a revision newer than everything there was. */
  predicate Evolves(c: Cluster, d: Cluster) {
    && c.revision <= d.revision
    && (forall n :: n in d.jobs ==>
          (n in c.jobs && d.jobs[n] == c.jobs[n]) || d.jobs[n].version > c.revision)
  }

  lemma EvolvesTransitive(a: Cluster, b: Cluster, c: Cluster)
    requires Evolves(a, b) && Evolves(b, c)
    ensures Evolves(a, c)
  {
    forall n | n in c.jobs && !(n in a.jobs && c.jobs[n] == a.jobs[n])
      ensures c.jobs[n].version > a.revision
    {
      if n in b.jobs && c.jobs[n] == b.jobs[n] {
        assert b.jobs[n].version > a.revision;
      }
    }
  }

  /** A revision pins the whole Job: the same name with the same revision is the same
      Job in the same state, however much time has passed. */
  lemma RevisionPins(c: Cluster, d: Cluster, name: string)
    requires ValidCluster(c) && Evolves(c, d)
    requires name in c.jobs && name in d.jobs && d.jobs[name].version == c.jobs[name].version
    ensures d.jobs[name] == c.jobs[name]
  {
  }

  ghost predicate ValidAt(past: seq<Cluster>, i: nat)
    requires i < |past|
  {
    ValidCluster(past[i])
  }

  ghost predicate EvolvesAt(past: seq<Cluster>, i: nat, j: nat)
    requires i <= j < |past|
  {
    Evolves(past[i], past[j])
  }

  /** Every state in the list is well formed and evolved from all earlier ones. */
  ghost predicate Consistent(past: seq<Cluster>) {
    && (forall i :: 0 <= i < |past| ==> ValidAt(past, i))
    && (forall i, j :: 0 <= i <= j < |past| ==> EvolvesAt(past, i, j))
  }

  lemma ConsistentGrows(past: seq<Cluster>, next: Cluster)
    requires |past| > 0 && Consistent(past)
    requires ValidCluster(next) && Evolves(past[|past| - 1], next)
    ensures Consistent(past + [next])
  {
    var longer := past + [next];
    forall i | 0 <= i < |longer| ensures ValidAt(longer, i) {
      assert i < |past| ==> ValidAt(past, i);
    }
    forall i, j | 0 <= i <= j < |longer| ensures EvolvesAt(longer, i, j) {
      if j < |past| {
        assert EvolvesAt(past, i, j);
      } else if i < |past| {
        assert EvolvesAt(past, i, |past| - 1);
        EvolvesTransitive(past[i], past[|past| - 1], next);
      }
    }
  }

  // ---------- the server ----------

  datatype Write = Write(name: string, before: Job, after: Job)
  datatype Removal = Removal(name: string, before: Job)
  datatype Request = PatchRequest(name: string, uid: nat, version: nat) | DeleteRequest(name: string, precondition: Option<nat>)

  /** A call and its reply. */
  datatype ApiCall =
    | GetCall(name: string, job: Option<Job>, err: Option<ApiError>)
    | ListCall(pods: Option<seq<Pod>>)
    | PatchCall(name: string, uid: nat, version: nat, err: Option<ApiError>)
    | DeleteCall(name: string, precondition: Option<nat>, err: Option<ApiError>)

  /** `past` lists every state the server went through, the current one last; `calls` lists
      the calls of this worker with their replies, `requests` the writes it asked for,
      `patches` and `removals` those that took effect, and `failures` counts the error
      replies other than "not found". */
  class ApiServer {
    var state: Cluster
    var past: seq<Cluster>
    ghost var calls: seq<ApiCall>
    ghost var requests: seq<Request>
    ghost var patches: seq<Write>
    ghost var removals: seq<Removal>
    ghost var failures: nat

    constructor (initial: Cluster)
      requires ValidCluster(initial)
      ensures Valid() && state == initial && past == [initial]
      ensures calls == [] && requests == [] && patches == [] && removals == [] && failures == 0
    {
      state, past, calls := initial, [initial], [];
      requests, patches, removals, failures := [], [], [], 0;
    }

    ghost predicate Valid()
      reads this`state, this`past
    {
      && |past| > 0 && past[|past| - 1] == state
      && Consistent(past)
    }

    /** The server once served this Job under this name. */
    ghost predicate Observed(name: string, job: Job)
      reads this`past
    {
      Saw(past, name, job)
    }

    /** The state moves on, and everything seen before stays seen. */
    twostate predicate Continues()
      reads this
    {
      && Valid() && old(past) <= past && old(calls) <= calls && old(requests) <= requests
      && old(patches) <= patches && old(removals) <= removals && old(failures) <= failures
    }

    method MoveTo(next: Cluster)
      requires Valid() && ValidCluster(next) && Evolves(state, next)
      modifies this`state, this`past
      ensures Continues() && state == next && past == old(past) + [next]
    {
      ConsistentGrows(past, next);
      state := next;
      past := past + [next];
    }

    /** A watch delivery: some state the server once had under the name, perhaps stale. */
    method Deliver(name: string, sighting: nat) returns (job: Option<Job>)
      requires Valid()
      modifies this`state, this`past
      ensures Continues()
      ensures job == if sighting < |past| && name in past[sighting].jobs then Some(past[sighting].jobs[name]) else None
      ensures job.Some? ==> Observed(name, job.value)
    {
      Interfere();
      if sighting < |past| && name in past[sighting].jobs {
        return Some(past[sighting].jobs[name]);
      }
      return None;
    }

    /** Other actors change the cluster. */
    method Interfere()
      requires Valid()
      modifies this`state, this`past
      ensures Continues() && |past| == |old(past)| + 1
    {
      assert ValidAt(past, |past| - 1);
      var next :| ValidCluster(next) && Evolves(state, next);
      MoveTo(next);
    }

    method Get(name: string) returns (job: Option<Job>, err: Option<ApiError>)
      requires Valid()
      modifies this`state, this`past, this`calls, this`failures
      ensures Continues() && calls == old(calls) + [GetCall(name, job, err)]
      ensures err.Some? && err != Some(NotFound) ==> failures > old(failures)
      ensures err.None? <==> job.Some?
      ensures job.Some? ==> Observed(name, job.value) && SawSince(past, name, job.value, |old(past)|)
      ensures err == Some(NotFound) ==> SawAbsent(past, name, |old(past)|)
    {
      Interfere();
      var answered: bool := *;
      if !answered {
        var e: ApiError :| e != NotFound;
        failures := failures + 1;
        job, err := None, Some(e);
      } else if name in state.jobs {
        assert past[|past| - 1].jobs[name] == state.jobs[name];
        job, err := Some(state.jobs[name]), None;
      } else {
        assert past[|past| - 1] == state;
        job, err := None, Some(NotFound);
      }
      calls := calls + [GetCall(name, job, err)];
    }

    method ListPods() returns (pods: Option<seq<Pod>>)
      requires Valid()
      modifies this`state, this`past, this`calls
      ensures Continues() && calls == old(calls) + [ListCall(pods)]
      ensures |past| > |old(past)|
      ensures pods.Some? ==> past[|past| - 1].pods == pods.value
    {
      Interfere();
      var answered: bool := *;
      pods := if answered then Some(state.pods) else None;
      calls := calls + [ListCall(pods)];
    }

    /** A write request reaches the server, or not, and meets its preconditions, or not;
        without an error it is about to be applied. */
    method Meet(name: string, uid: Option<nat>, version: Option<nat>) returns (err: Option<ApiError>)
      requires Valid()
      modifies this`state, this`past
      ensures Continues()
      ensures err.None? ==>
                && name in state.jobs && Observed(name, state.jobs[name])
                && (uid.Some? ==> state.jobs[name].uid == uid.value) && (version.Some? ==> state.jobs[name].version == version.value)
      ensures err == Some(NotFound) ==> SawAbsent(past, name, |old(past)|)
    {
      Interfere();
      var delivered: bool := *;
      if !delivered {
        var e: ApiError :| e != NotFound;
        return Some(e);
      }
      if name !in state.jobs {
        assert past[|past| - 1] == state;
        return Some(NotFound);
      }
      assert past[|past| - 1].jobs[name] == state.jobs[name];
      if (uid.Some? && state.jobs[name].uid != uid.value) || (version.Some? && state.jobs[name].version != version.value) {
        return Some(Conflict);
      }
      return None;
    }

    ghost method Note(request: Request, call: ApiCall, failed: bool)
      modifies this`requests, this`calls, this`failures
      ensures requests == old(requests) + [request] && calls == old(calls) + [call]
      ensures failures == old(failures) + if failed then 1 else 0
    {
      requests, calls := requests + [request], calls + [call];
      failures := failures + if failed then 1 else 0;
    }

    /** A merge patch whose metadata carries the UID and revision it is meant for. */
    method PatchExpired(name: string, uid: nat, version: nat) returns (err: Option<ApiError>)
      requires Valid()
      modifies this
      ensures Continues() && removals == old(removals)
      ensures requests == old(requests) + [PatchRequest(name, uid, version)]
      ensures calls == old(calls) + [PatchCall(name, uid, version, err)]
      ensures patches == old(patches) || (|patches| == |old(patches)| + 1 && patches[..|old(patches)|] == old(patches))
      ensures patches != old(patches) ==>
                var w := patches[|patches| - 1];
                && w.name == name && w.before.uid == uid && w.before.version == version
                && Observed(name, w.before)
                && w.after == w.before.(version := w.after.version, spec := Expired(w.before.spec))
      ensures err.None? ==> patches != old(patches)
      ensures err.Some? && err != Some(NotFound) ==> failures > old(failures)
      ensures err == Some(NotFound) ==> SawAbsent(past, name, |old(past)|)
    {
      err := Meet(name, Some(uid), Some(version));
      if err.None? {
        err := ApplyPatch(name);
      }
      Note(PatchRequest(name, uid, version), PatchCall(name, uid, version, err), err.Some? && err != Some(NotFound));
    }

    /** The reply may be lost although the patch was applied. */
    method ApplyPatch(name: string) returns (err: Option<ApiError>)
      requires Valid() && name in state.jobs
      modifies this`state, this`past, this`patches
      ensures Continues() && old(past) <= past && (err.None? || err == Some(Transient))
      ensures
        var job := old(state).jobs[name];
        && |patches| == |old(patches)| + 1 && patches[..|old(patches)|] == old(patches)
        && patches[|old(patches)|].name == name && patches[|old(patches)|].before == job
        && patches[|old(patches)|].after == job.(version := patches[|old(patches)|].after.version, spec := Expired(job.spec))
        && Observed(name, job)
    {
      var job := state.jobs[name];
      assert past[|past| - 1].jobs[name] == job;
      var patched := job.(version := state.revision + 1, spec := Expired(job.spec));
      assert ValidAt(past, |past| - 1);
      MoveTo(state.(jobs := state.jobs[name := patched], revision := state.revision + 1));
      assert past[|past| - 1].jobs[name] == patched;
      patches := patches + [Write(name, job, patched)];
      var replied: bool := *;
      err := if replied then None else Some(Transient);
    }

    /** A deletion with an optional UID precondition. */
    method Delete(name: string, uid: Option<nat>) returns (err: Option<ApiError>, ghost taken: Option<Job>)
      requires Valid()
      modifies this
      ensures Continues() && patches == old(patches)
      ensures requests == old(requests) + [DeleteRequest(name, uid)]
      ensures calls == old(calls) + [DeleteCall(name, uid, err)]
      ensures removals == if taken.Some? then old(removals) + [Removal(name, taken.value)] else old(removals)
      ensures taken.Some? ==> (uid.Some? ==> taken.value.uid == uid.value) && Observed(name, taken.value)
      ensures err.None? || err == Some(NotFound) ==> SawAbsent(past, name, |old(past)|)
      ensures err.Some? && err != Some(NotFound) ==> failures > old(failures)
    {
      err := Meet(name, uid, None);
      taken := None;
      if err.None? {
        taken := Some(state.jobs[name]);
        err := ApplyDelete(name);
      }
      Note(DeleteRequest(name, uid), DeleteCall(name, uid, err), err.Some? && err != Some(NotFound));
    }

    method ApplyDelete(name: string) returns (err: Option<ApiError>)
      requires Valid() && name in state.jobs
      modifies this`state, this`past, this`removals
      ensures Continues() && (err.None? || err == Some(Transient))
      ensures removals == old(removals) + [Removal(name, old(state).jobs[name])]
      ensures Observed(name, old(state).jobs[name]) && SawAbsent(past, name, |old(past)|)
    {
      var job := state.jobs[name];
      assert past[|past| - 1].jobs[name] == job;
      assert ValidAt(past, |past| - 1);
      MoveTo(state.(jobs := state.jobs - {name}, revision := state.revision + 1));
      assert name !in past[|past| - 1].jobs;
      removals := removals + [Removal(name, job)];
      var replied: bool := *;
      err := if replied then None else Some(Transient);
    }
  }

  ghost predicate Saw(past: seq<Cluster>, name: string, job: Job) {
    exists i :: 0 <= i < |past| && name in past[i].jobs && past[i].jobs[name] == job
  }

  ghost predicate SawSince(past: seq<Cluster>, name: string, job: Job, since: nat) {
    exists i :: since <= i < |past| && name in past[i].jobs && past[i].jobs[name] == job
  }

  /** The name was absent in some state from number `since` on. */
  ghost predicate SawAbsent(past: seq<Cluster>, name: string, since: nat) {
    exists i :: since <= i < |past| && name !in past[i].jobs
  }

  ghost predicate SawTerminal(past: seq<Cluster>, name: string, uid: nat) {
    exists i :: 0 <= i < |past| && name in past[i].jobs && past[i].jobs[name].uid == uid
                && (past[i].jobs[name].complete || past[i].jobs[name].failed)
  }

  /** In some state from number `since` on, the Pods of a Job that is not retried were all
      finished, one of them failed. */
  ghost predicate SawPodsStopped(past: seq<Cluster>, name: string, uid: nat, since: nat) {
    exists i, k :: since <= i < |past| && 0 <= k < |past| && name in past[k].jobs
                   && past[k].jobs[name].uid == uid && PodsStopped(past[k].jobs[name], past[i].pods)
  }

  predicate Owns(job: Job, pod: Pod) {
    pod.controllerUid == job.uid && pod.controlledBy == Some(job.uid)
  }

  /** A Job whose Pods are not replaced once they failed. */
  predicate NotRetried(job: Job) {
    job.spec.backoffLimit == Some(0) && !job.spec.hasPodFailurePolicy
  }

  /** All Pods of the Job have ended, and one of them failed. */
  ghost predicate OwnPodsEnded(job: Job, pods: seq<Pod>) {
    && (forall i :: 0 <= i < |pods| && Owns(job, pods[i]) ==> pods[i].phase.PodFailed? || pods[i].phase.PodSucceeded?)
    && (exists i :: 0 <= i < |pods| && Owns(job, pods[i]) && pods[i].phase.PodFailed?)
  }

  ghost predicate PodsStopped(job: Job, pods: seq<Pod>) {
    NotRetried(job) && OwnPodsEnded(job, pods)
  }

  /** Two sightings of one name at one revision are the same Job in the same state. So a
      write fenced by the revision of an observed Job meets exactly what was observed,
      however stale the observation is. */
  lemma FencedWriteMeetsObserved(past: seq<Cluster>, name: string, observed: Job, met: Job)
    requires Consistent(past) && Saw(past, name, observed) && Saw(past, name, met)
    requires observed.version == met.version
    ensures observed == met
  {
    var i :| 0 <= i < |past| && name in past[i].jobs && past[i].jobs[name] == observed;
    var j :| 0 <= j < |past| && name in past[j].jobs && past[j].jobs[name] == met;
    assert ValidAt(past, i) && ValidAt(past, j);
    if i <= j {
      assert EvolvesAt(past, i, j);
      RevisionPins(past[i], past[j], name);
    } else {
      assert EvolvesAt(past, j, i);
      RevisionPins(past[j], past[i], name);
    }
  }
}
