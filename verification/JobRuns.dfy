/** What the Kubernetes backend does to a task's Job: fenced expiry of abandoned Jobs,
    the watch and poll loop of one run with its deferred cleanup, and cancellation. */
module JobRuns {
  import opened Options
  import opened Sequences
  import opened JobApi

  datatype Disposition = TerminationRequired | ExecutionStopped

  datatype StopError = Api(error: ApiError) | Replaced | RetriesExhausted

  // ---------- what a request may have done ----------

  /** A patch met the observed Job while it was neither complete nor failed. It set a
      deadline of one second, allowed no more Pods and resumed the Job, and left its
      retention, its retries and everything else alone. */
  predicate FencedPatch(w: Write, name: string, uid: nat) {
    var spec := w.before.spec;
    && w.name == name && w.before.uid == uid && !w.before.complete && !w.before.failed
    && w.after == w.before.(version := w.after.version,
                            spec := JobSpec(Some(1), Some(0), false, spec.ttlSecondsAfterFinished, spec.backoffLimit, spec.hasPodFailurePolicy))
  }

  ghost predicate FencedPatches(before: seq<Write>, after: seq<Write>, name: string, uid: nat) {
    && before <= after
    && (forall i :: |before| <= i < |after| ==> FencedPatch(after[i], name, uid))
  }

  /** Every write request in `after` that is not in `before` asks to expire this Job. */
  ghost predicate OnlyPatches(before: seq<Request>, after: seq<Request>, name: string, uid: nat) {
    && before <= after
    && (forall i :: |before| <= i < |after| ==> after[i].PatchRequest? && after[i].name == name && after[i].uid == uid)
  }

  /** Every write request in `after` that is not in `before` asks to delete this Job. */
  ghost predicate OnlyDeletes(before: seq<Request>, after: seq<Request>, name: string, uid: nat) {
    && before <= after
    && (forall i :: |before| <= i < |after| ==> after[i] == DeleteRequest(name, Some(uid)))
  }

  /** Every removal in `after` that is not in `before` took the Job with this UID. */
  ghost predicate OnlyRemoves(before: seq<Removal>, after: seq<Removal>, name: string, uid: nat) {
    && before <= after
    && (forall i :: |before| <= i < |after| ==> after[i].name == name && after[i].before.uid == uid)
  }

  /** A patch of this Job took effect between the two. */
  ghost predicate Patched(before: seq<Write>, after: seq<Write>, name: string, uid: nat) {
    exists i :: |before| <= i < |after| && FencedPatch(after[i], name, uid)
  }

  /** Why no further stop is needed: since state number `since` the name was seen absent or
      the Pods were seen stopped, or the Job was seen terminal, or it was patched after
      `before`. */
  ghost predicate StopSettled(past: seq<Cluster>, since: nat, before: seq<Write>, after: seq<Write>, name: string, uid: nat, disposition: Disposition) {
    || SawAbsent(past, name, since)
    || SawTerminal(past, name, uid)
    || (disposition.ExecutionStopped? && SawPodsStopped(past, name, uid, since))
    || Patched(before, after, name, uid)
  }

  /** A later start says more. */
  lemma SettledEarlier(past: seq<Cluster>, since: nat, earlier: nat, before: seq<Write>, shorter: seq<Write>, after: seq<Write>, name: string, uid: nat, disposition: Disposition)
    requires earlier <= since && shorter <= before
    requires StopSettled(past, since, before, after, name, uid, disposition)
    ensures StopSettled(past, earlier, shorter, after, name, uid, disposition)
  {
    if SawAbsent(past, name, since) {
      var i :| since <= i < |past| && name !in past[i].jobs;
    } else if Patched(before, after, name, uid) {
      var i :| |before| <= i < |after| && FencedPatch(after[i], name, uid);
    } else if !SawTerminal(past, name, uid) {
      var i, k :| since <= i < |past| && 0 <= k < |past| && name in past[k].jobs
        && past[k].jobs[name].uid == uid && PodsStopped(past[k].jobs[name], past[i].pods);
    }
  }

  lemma SawSinceGrows(past: seq<Cluster>, longer: seq<Cluster>, name: string, job: Job, since: nat)
    requires past <= longer && SawSince(past, name, job, since)
    ensures SawSince(longer, name, job, since)
  {
    var i :| since <= i < |past| && name in past[i].jobs && past[i].jobs[name] == job;
    assert longer[i] == past[i];
  }

  lemma SawGrows(past: seq<Cluster>, longer: seq<Cluster>, name: string, job: Job)
    requires past <= longer && Saw(past, name, job)
    ensures Saw(longer, name, job)
  {
    var i :| 0 <= i < |past| && name in past[i].jobs && past[i].jobs[name] == job;
    assert longer[i] == past[i];
  }

  // ---------- expiry ----------

  /** The loop of `jobPodsStopped`: the listed Pods that belong to the Job have all ended,
      and one of them failed. */
  method OwnPodsFinished(job: Job, pods: seq<Pod>) returns (ended: bool)
    ensures ended <==>
              && (forall p :: p in pods && p.controllerUid == job.uid && p.controlledBy == Some(job.uid) ==> p.phase == PodFailed || p.phase == PodSucceeded)
              && (exists p :: p in pods && p.controllerUid == job.uid && p.controlledBy == Some(job.uid) && p.phase == PodFailed)
    ensures ended <==> OwnPodsEnded(job, pods)
  {
    var hasFailedPod := false;
    for i := 0 to |pods|
      invariant forall k :: 0 <= k < i && Owns(job, pods[k]) ==> pods[k].phase.PodFailed? || pods[k].phase.PodSucceeded?
      invariant hasFailedPod <==> exists k :: 0 <= k < i && Owns(job, pods[k]) && pods[k].phase.PodFailed?
    {
      if pods[i].controllerUid != job.uid || pods[i].controlledBy != Some(job.uid) {
        continue;
      }
      assert Owns(job, pods[i]);
      match pods[i].phase {
        case PodFailed => hasFailedPod := true;
        case PodSucceeded =>
        case _ => return false;
      }
    }
    return hasFailedPod;
  }

  /** What one attempt asks of the server, and what it makes of the replies: it looks the
      Job up, keeping to what it last observed if that fails, and stops there if the name is
      gone, the Job was replaced, or it is complete or failed. If the failure says that
      nothing runs any more and the Job is not retried, it lists the Pods and stops if they
      confirm that. Otherwise it patches the very Job and revision it knows. */
  ghost predicate AttemptCalls(did: seq<ApiCall>, name: string, observed: Job, disposition: Disposition, err: Option<StopError>) {
    && |did| > 0 && did[0].GetCall? && did[0].name == name
    && var job := if did[0].job.Some? then did[0].job.value else observed;
       if did[0].err == Some(NotFound) then |did| == 1 && err.None?
       else if job.uid != observed.uid then |did| == 1 && err == Some(Replaced)
       else if job.complete || job.failed then |did| == 1 && err.None?
       else StopCalls(did[1..], name, job, disposition, err)
  }

  ghost predicate StopCalls(did: seq<ApiCall>, name: string, job: Job, disposition: Disposition, err: Option<StopError>) {
    if disposition.ExecutionStopped? && job.spec.backoffLimit == Some(0) && !job.spec.hasPodFailurePolicy then
      && |did| > 0 && did[0].ListCall?
      && if did[0].pods.Some? && OwnPodsEnded(job, did[0].pods.value) then |did| == 1 && err.None?
         else EndsInPatch(did[1..], name, job, err)
    else
      EndsInPatch(did, name, job, err)
  }

  predicate EndsInPatch(did: seq<ApiCall>, name: string, job: Job, err: Option<StopError>) {
    && |did| == 1 && did[0].PatchCall? && did[0].name == name && did[0].uid == job.uid && did[0].version == job.version
    && err == if did[0].err.None? || did[0].err == Some(NotFound) then None else Some(Api(did[0].err.value))
  }

  /** One attempt. The last observed identity stands in when the refresh fails; the UID
      and revision in the patch then keep it from touching anything newer. */
  method ExpireAbandonedJob(api: ApiServer, name: string, observed: Job, disposition: Disposition) returns (err: Option<StopError>, ghost did: seq<ApiCall>)
    requires api.Valid() && api.Observed(name, observed)
    modifies api
    ensures api.Continues() && api.removals == old(api.removals)
    ensures api.calls == old(api.calls) + did && AttemptCalls(did, name, observed, disposition, err)
    ensures OnlyPatches(old(api.requests), api.requests, name, observed.uid)
    ensures FencedPatches(old(api.patches), api.patches, name, observed.uid)
    ensures err.None? ==> StopSettled(api.past, |old(api.past)|, old(api.patches), api.patches, name, observed.uid, disposition)
    ensures err == Some(Replaced) ==> api.requests == old(api.requests) && SawReplaced(api.past, name, observed.uid, |old(api.past)|)
    ensures err.Some? && err.value.Api? ==> |api.requests| == |old(api.requests)| + 1
    ensures err != Some(RetriesExhausted)
    ensures err.Some? ==> err == Some(Replaced) || api.failures > old(api.failures)
  {
    var job, gone, look := Refresh(api, name, observed);
    did := [look];
    if gone {
      return None, did;
    }
    if job.uid != observed.uid {
      return Some(Replaced), did;
    }
    if Terminal(job) {
      SawItTerminal(api.past, name, job);
      return None, did;
    }
    ghost var rest;
    err, rest := StopRunning(api, name, job, disposition, |old(api.past)|);
    did := did + rest;
    assert did[1..] == rest;
  }

  /** Asks for the end of a Job that was seen neither complete nor failed, unless its Pods
      confirm that nothing runs any more. */
  method StopRunning(api: ApiServer, name: string, job: Job, disposition: Disposition, ghost since: nat) returns (err: Option<StopError>, ghost did: seq<ApiCall>)
    requires api.Valid() && api.Observed(name, job) && !Terminal(job) && since <= |api.past|
    modifies api
    ensures api.Continues() && api.removals == old(api.removals)
    ensures api.calls == old(api.calls) + did && StopCalls(did, name, job, disposition, err)
    ensures OnlyPatches(old(api.requests), api.requests, name, job.uid)
    ensures FencedPatches(old(api.patches), api.patches, name, job.uid)
    ensures err.None? ==> StopSettled(api.past, since, old(api.patches), api.patches, name, job.uid, disposition)
    ensures err.Some? ==> err.value.Api? && api.failures > old(api.failures) && |api.requests| == |old(api.requests)| + 1
  {
    did := [];
    if disposition.ExecutionStopped? {
      var stopped;
      stopped, did := JobPodsStopped(api, name, job, since);
      if stopped {
        return None, did;
      }
    }
    ghost var asked := did;
    ghost var patch;
    err, patch := PatchFenced(api, name, job, since);
    did := did + [patch];
    assert did[|asked|..] == [patch] && ([] + [patch]) == [patch];
  }

  lemma SawItTerminal(past: seq<Cluster>, name: string, job: Job)
    requires Saw(past, name, job) && Terminal(job)
    ensures SawTerminal(past, name, job.uid)
  {
  }

  /** The last observed identity stands in when the refresh fails. */
  method Refresh(api: ApiServer, name: string, observed: Job) returns (job: Job, gone: bool, ghost look: ApiCall)
    requires api.Valid() && api.Observed(name, observed)
    modifies api`state, api`past, api`calls, api`failures
    ensures api.Continues() && api.calls == old(api.calls) + [look]
    ensures api.Observed(name, job) && (job == observed || SawSince(api.past, name, job, |old(api.past)|))
    ensures gone ==> SawAbsent(api.past, name, |old(api.past)|)
    ensures look.GetCall? && look.name == name && (gone <==> look.err == Some(NotFound))
    ensures job == if look.job.Some? then look.job.value else observed
  {
    var refreshed, err := api.Get(name);
    SawGrows(old(api.past), api.past, name, observed);
    job := if refreshed.Some? then refreshed.value else observed;
    gone := err == Some(NotFound);
    look := GetCall(name, refreshed, err);
  }

  /** The Pods are listed only for a Job that is not retried. */
  method JobPodsStopped(api: ApiServer, name: string, job: Job, ghost since: nat) returns (stopped: bool, ghost did: seq<ApiCall>)
    requires api.Valid() && api.Observed(name, job) && since <= |api.past|
    modifies api`state, api`past, api`calls, api`failures
    ensures api.Continues() && api.calls == old(api.calls) + did
    ensures api.Observed(name, job)
    ensures stopped ==> SawPodsStopped(api.past, name, job.uid, since)
    ensures job.spec.backoffLimit == Some(0) && !job.spec.hasPodFailurePolicy <==> did != []
    ensures did != [] ==> |did| == 1 && did[0].ListCall? && (stopped <==> did[0].pods.Some? && OwnPodsEnded(job, did[0].pods.value))
    ensures did == [] ==> !stopped
  {
    if job.spec.backoffLimit != Some(0) || job.spec.hasPodFailurePolicy {
      return false, [];
    }
    ghost var before := api.past;
    var pods := api.ListPods();
    did := [ListCall(pods)];
    SawGrows(before, api.past, name, job);
    if pods.None? {
      return false, did;
    }
    stopped := OwnPodsFinished(job, pods.value);
    assert api.past[|api.past| - 1].pods == pods.value;
  }

  method PatchFenced(api: ApiServer, name: string, job: Job, ghost since: nat) returns (err: Option<StopError>, ghost patch: ApiCall)
    requires api.Valid() && api.Observed(name, job) && !Terminal(job) && since <= |api.past|
    modifies api
    ensures api.Continues() && api.removals == old(api.removals)
    ensures api.calls == old(api.calls) + [patch] && EndsInPatch([patch], name, job, err)
    ensures OnlyPatches(old(api.requests), api.requests, name, job.uid)
    ensures FencedPatches(old(api.patches), api.patches, name, job.uid)
    ensures err.None? ==> SawAbsent(api.past, name, since) || Patched(old(api.patches), api.patches, name, job.uid)
    ensures err.Some? ==> err.value.Api? && api.failures > old(api.failures)
    ensures |api.requests| == |old(api.requests)| + 1
  {
    var patchErr := api.PatchExpired(name, job.uid, job.version);
    patch := PatchCall(name, job.uid, job.version, patchErr);
    SawGrows(old(api.past), api.past, name, job);
    if api.patches != old(api.patches) {
      ghost var w := api.patches[|api.patches| - 1];
      FencedWriteMeetsObserved(api.past, name, job, w.before);
      assert FencedPatch(w, name, job.uid);
    }
    if patchErr.None? || patchErr == Some(NotFound) {
      return None, patch;
    }
    return Some(Api(patchErr.value)), patch;
  }

  /** Another Job had the name in some state from number `since` on. */
  ghost predicate SawReplaced(past: seq<Cluster>, name: string, uid: nat, since: nat) {
    exists i :: since <= i < |past| && name in past[i].jobs && past[i].jobs[name].uid != uid
  }

  lemma ReplacedEarlier(past: seq<Cluster>, name: string, uid: nat, since: nat, earlier: nat)
    requires earlier <= since && SawReplaced(past, name, uid, since)
    ensures SawReplaced(past, name, uid, earlier)
  {
  }

  predicate Retriable(e: StopError) {
    e.Api? && (e.error.Conflict? || e.error.Transient?)
  }

  /** Attempts one after the other. */
  function AllCalls(attempts: seq<seq<ApiCall>>): (calls: seq<ApiCall>) {
    if attempts == [] then [] else AllCalls(attempts[..|attempts| - 1]) + attempts[|attempts| - 1]
  }

  lemma AllCallsSnoc(before: seq<ApiCall>, attempts: seq<seq<ApiCall>>, last: seq<ApiCall>)
    ensures before + AllCalls(attempts) + last == before + AllCalls(attempts + [last])
  {
    assert (attempts + [last])[..|attempts|] == attempts;
    Regroup(before, AllCalls(attempts), last);
  }

  /** Each of these attempts failed with a conflict or in passing. */
  ghost predicate Passing(attempts: seq<seq<ApiCall>>, errs: seq<Option<StopError>>, name: string, observed: Job, disposition: Disposition) {
    && |attempts| == |errs|
    && (forall k :: 0 <= k < |errs| ==> AttemptCalls(attempts[k], name, observed, disposition, errs[k]))
    && (forall k :: 0 <= k < |errs| ==> errs[k] == Some(Api(Conflict)) || errs[k] == Some(Api(Transient)))
  }

  /** Attempts are made one after the other while the error is a conflict or a passing one,
      up to the given number; the result is that of the last one. */
  ghost predicate RetryCalls(attempts: seq<seq<ApiCall>>, errs: seq<Option<StopError>>, name: string, observed: Job, disposition: Disposition, deadline: nat, err: Option<StopError>) {
    || (Passing(attempts, errs, name, observed, disposition) && |errs| == deadline && err == Some(RetriesExhausted))
    || (&& 0 < |errs| <= deadline && |attempts| == |errs|
        && Passing(attempts[..|attempts| - 1], errs[..|errs| - 1], name, observed, disposition)
        && AttemptCalls(attempts[|attempts| - 1], name, observed, disposition, err)
        && err == errs[|errs| - 1] && err != Some(Api(Conflict)) && err != Some(Api(Transient)))
  }

  lemma LastAttempt(attempts: seq<seq<ApiCall>>, errs: seq<Option<StopError>>, name: string, observed: Job, disposition: Disposition, deadline: nat, did: seq<ApiCall>, err: Option<StopError>)
    requires Passing(attempts, errs, name, observed, disposition) && AttemptCalls(did, name, observed, disposition, err) && |errs| < deadline
    ensures if err == Some(Api(Conflict)) || err == Some(Api(Transient)) then Passing(attempts + [did], errs + [err], name, observed, disposition)
            else RetryCalls(attempts + [did], errs + [err], name, observed, disposition, deadline, err)
  {
    assert (attempts + [did])[..|attempts|] == attempts && (errs + [err])[..|errs|] == errs;
  }

  /** Nothing but fenced patches of this Job was asked for and done. */
  ghost predicate OnlyFenced(asked: seq<Request>, asked': seq<Request>, done: seq<Write>, done': seq<Write>, name: string, uid: nat) {
    OnlyPatches(asked, asked', name, uid) && FencedPatches(done, done', name, uid)
  }

  lemma OnlyFencedJoin(r: seq<Request>, r': seq<Request>, r'': seq<Request>, w: seq<Write>, w': seq<Write>, w'': seq<Write>, name: string, uid: nat)
    requires OnlyFenced(r, r', w, w', name, uid) && OnlyFenced(r', r'', w', w'', name, uid)
    ensures OnlyFenced(r, r'', w, w'', name, uid)
  {
    forall i | |r| <= i < |r''| ensures r''[i].PatchRequest? && r''[i].name == name && r''[i].uid == uid {
      assert i < |r'| ==> r''[i] == r'[i];
    }
    forall i | |w| <= i < |w''| ensures FencedPatch(w''[i], name, uid) {
      assert i < |w'| ==> w''[i] == w'[i];
    }
  }

  /** Across all retries, refresh failures and concurrent changes, only the observed Job
      is ever patched, only while it is not terminal, and it is never deleted. Success
      means the Job needs no further stop. `deadline` attempts fit before the backoff or
      the context ends. */
  method RequestJobExecutionStop(api: ApiServer, name: string, observed: Job, disposition: Disposition, deadline: nat)
    returns (err: Option<StopError>, ghost attempts: seq<seq<ApiCall>>, ghost errs: seq<Option<StopError>>)
    requires api.Valid() && api.Observed(name, observed)
    modifies api
    ensures api.Continues() && api.removals == old(api.removals)
    ensures OnlyPatches(old(api.requests), api.requests, name, observed.uid)
    ensures FencedPatches(old(api.patches), api.patches, name, observed.uid)
    ensures err.None? ==> StopSettled(api.past, |old(api.past)|, old(api.patches), api.patches, name, observed.uid, disposition)
    ensures api.calls == old(api.calls) + AllCalls(attempts)
    ensures observed.complete || observed.failed ==> err.None? && attempts == [] && api.requests == old(api.requests)
    ensures !observed.complete && !observed.failed ==> RetryCalls(attempts, errs, name, observed, disposition, deadline, err)
    ensures err == Some(Replaced) ==> SawReplaced(api.past, name, observed.uid, |old(api.past)|)
    ensures err.Some? ==> err == Some(Replaced) || api.failures > old(api.failures) || deadline == 0
  {
    attempts, errs := [], [];
    if Terminal(observed) {
      return None, attempts, errs;
    }
    var steps := 0;
    while steps < deadline
      invariant api.Continues() && api.removals == old(api.removals)
      invariant OnlyFenced(old(api.requests), api.requests, old(api.patches), api.patches, name, observed.uid)
      invariant 0 <= steps <= deadline && |errs| == steps
      invariant api.calls == old(api.calls) + AllCalls(attempts) && Passing(attempts, errs, name, observed, disposition)
      invariant steps > 0 ==> api.failures > old(api.failures)
    {
      SawGrows(old(api.past), api.past, name, observed);
      ghost var since, before, asked := |api.past|, api.patches, api.requests;
      ghost var did;
      err, did := ExpireAbandonedJob(api, name, observed, disposition);
      OnlyFencedJoin(old(api.requests), asked, api.requests, old(api.patches), before, api.patches, name, observed.uid);
      AllCallsSnoc(old(api.calls), attempts, did);
      LastAttempt(attempts, errs, name, observed, disposition, deadline, did, err);
      attempts, errs := attempts + [did], errs + [err];
      if err.None? {
        SettledEarlier(api.past, since, |old(api.past)|, before, old(api.patches), api.patches, name, observed.uid, disposition);
        return;
      }
      if !Retriable(err.value) {
        if err == Some(Replaced) {
          ReplacedEarlier(api.past, name, observed.uid, since, |old(api.past)|);
        }
        return;
      }
      steps := steps + 1;
    }
    err := Some(RetriesExhausted);
  }

  // ---------- deletion ----------

  /** Each of these deletions under the UID failed in passing. */
  ghost predicate PassingDeletes(did: seq<ApiCall>, name: string, uid: nat) {
    forall k :: 0 <= k < |did| ==> did[k] == DeleteCall(name, Some(uid), Some(Transient))
  }

  /** Deletions under the UID, again while the error is a passing one, up to the given
      number; a name that is gone counts as deleted. */
  ghost predicate DeleteCalls(did: seq<ApiCall>, name: string, uid: nat, deadline: nat, err: Option<ApiError>) {
    || (PassingDeletes(did, name, uid) && |did| == deadline && err == Some(Transient))
    || (&& 0 < |did| <= deadline && PassingDeletes(did[..|did| - 1], name, uid)
        && did[|did| - 1].DeleteCall? && did[|did| - 1].name == name && did[|did| - 1].precondition == Some(uid)
        && did[|did| - 1].err != Some(Transient)
        && err == if did[|did| - 1].err == Some(NotFound) then None else did[|did| - 1].err)
  }

  lemma LastDelete(before: seq<ApiCall>, did: seq<ApiCall>, name: string, uid: nat, deadline: nat, reply: Option<ApiError>)
    requires PassingDeletes(did, name, uid) && |did| < deadline
    ensures var longer := did + [DeleteCall(name, Some(uid), reply)];
            && before + did + [DeleteCall(name, Some(uid), reply)] == before + longer
            && if reply == Some(Transient) then PassingDeletes(longer, name, uid)
               else DeleteCalls(longer, name, uid, deadline, if reply == Some(NotFound) then None else reply)
  {
    var longer := did + [DeleteCall(name, Some(uid), reply)];
    assert longer[..|did|] == did && longer[|did|] == DeleteCall(name, Some(uid), reply);
  }

  /** Nothing but deletions of this Job was asked for and done. */
  ghost predicate OnlyDeleted(asked: seq<Request>, asked': seq<Request>, done: seq<Removal>, done': seq<Removal>, name: string, uid: nat) {
    OnlyDeletes(asked, asked', name, uid) && OnlyRemoves(done, done', name, uid)
  }

  lemma OnlyDeletedJoin(r: seq<Request>, r': seq<Request>, r'': seq<Request>, d: seq<Removal>, d': seq<Removal>, d'': seq<Removal>, name: string, uid: nat)
    requires OnlyDeleted(r, r', d, d', name, uid) && OnlyDeleted(r', r'', d', d'', name, uid)
    ensures OnlyDeleted(r, r'', d, d'', name, uid)
  {
    forall i | |r| <= i < |r''| ensures r''[i] == DeleteRequest(name, Some(uid)) {
      assert i < |r'| ==> r''[i] == r'[i];
    }
    forall i | |d| <= i < |d''| ensures d''[i].name == name && d''[i].before.uid == uid {
      assert i < |d'| ==> d''[i] == d'[i];
    }
  }

  /** One deletion under the UID. */
  method DeleteOnce(api: ApiServer, name: string, uid: nat) returns (err: Option<ApiError>)
    requires api.Valid()
    modifies api
    ensures api.Continues() && api.patches == old(api.patches)
    ensures OnlyDeleted(old(api.requests), api.requests, old(api.removals), api.removals, name, uid)
    ensures |api.requests| == |old(api.requests)| + 1 && api.calls == old(api.calls) + [DeleteCall(name, Some(uid), err)]
    ensures err.None? || err == Some(NotFound) ==> SawAbsent(api.past, name, |old(api.past)|)
    ensures err.Some? && err != Some(NotFound) ==> api.failures > old(api.failures)
  {
    ghost var taken;
    err, taken := api.Delete(name, Some(uid));
  }

  method DeleteTaskJob(api: ApiServer, name: string, uid: nat, deadline: nat) returns (err: Option<ApiError>, ghost did: seq<ApiCall>)
    requires api.Valid()
    modifies api
    ensures api.Continues() && api.patches == old(api.patches)
    ensures OnlyDeletes(old(api.requests), api.requests, name, uid)
    ensures OnlyRemoves(old(api.removals), api.removals, name, uid)
    ensures api.calls == old(api.calls) + did && DeleteCalls(did, name, uid, deadline, err)
    ensures deadline > 0 <==> api.requests != old(api.requests)
    ensures deadline == 0 ==> api.removals == old(api.removals)
    ensures err.None? ==> SawAbsent(api.past, name, |old(api.past)|)
    ensures err.Some? ==> api.failures > old(api.failures) || deadline == 0
  {
    err, did := Some(Transient), [];
    var steps := 0;
    while steps < deadline && err == Some(Transient)
      invariant api.Continues() && api.patches == old(api.patches)
      invariant OnlyDeleted(old(api.requests), api.requests, old(api.removals), api.removals, name, uid)
      invariant 0 <= steps <= deadline && |did| == steps
      invariant api.calls == old(api.calls) + did
      invariant if err == Some(Transient) then PassingDeletes(did, name, uid) else DeleteCalls(did, name, uid, deadline, err)
      invariant |api.requests| == |old(api.requests)| + steps && (steps == 0 ==> api.removals == old(api.removals) && err.Some?)
      invariant if err.None? then SawAbsent(api.past, name, |old(api.past)|) else steps > 0 ==> api.failures > old(api.failures)
    {
      ghost var asked, done := api.requests, api.removals;
      err := DeleteOnce(api, name, uid);
      OnlyDeletedJoin(old(api.requests), asked, api.requests, old(api.removals), done, api.removals, name, uid);
      LastDelete(old(api.calls), did, name, uid, deadline, err);
      did := did + [DeleteCall(name, Some(uid), err)];
      if err == Some(NotFound) {
        err := None;
      }
      steps := steps + 1;
    }
  }

  // ---------- cancellation ----------

  /** Reads of one name, again while they fail in passing, up to the given number. */
  ghost predicate GetCalls(did: seq<ApiCall>, name: string, deadline: nat, job: Option<Job>, err: Option<ApiError>) {
    && |did| <= deadline
    && (forall k :: 0 <= k < |did| ==> did[k].GetCall? && did[k].name == name)
    && (forall k :: 0 <= k < |did| - 1 ==> did[k].err == Some(Transient))
    && if |did| > 0 && did[|did| - 1].err != Some(Transient) then did[|did| - 1] == GetCall(name, job, err)
       else |did| == deadline && job.None? && err == Some(Transient)
  }

  /** Reads are retried while they fail in passing. */
  method GetTaskJob(api: ApiServer, name: string, deadline: nat) returns (job: Option<Job>, err: Option<ApiError>, ghost did: seq<ApiCall>)
    requires api.Valid()
    modifies api`state, api`past, api`calls, api`failures
    ensures api.Continues()
    ensures err.None? <==> job.Some?
    ensures api.calls == old(api.calls) + did && GetCalls(did, name, deadline, job, err)
    ensures job.Some? ==> api.Observed(name, job.value) && SawSince(api.past, name, job.value, |old(api.past)|)
    ensures err == Some(NotFound) ==> SawAbsent(api.past, name, |old(api.past)|)
    ensures err.Some? && err != Some(NotFound) ==> api.failures > old(api.failures) || deadline == 0
  {
    job, err, did := None, Some(Transient), [];
    var steps := 0;
    while steps < deadline
      invariant api.Continues()
      invariant steps <= deadline && |did| == steps && api.calls == old(api.calls) + did
      invariant forall k :: 0 <= k < steps ==> did[k].GetCall? && did[k].name == name && did[k].err == Some(Transient)
      invariant job.None? && err == Some(Transient)
      invariant steps > 0 ==> api.failures > old(api.failures)
    {
      job, err := api.Get(name);
      did := did + [GetCall(name, job, err)];
      if err != Some(Transient) {
        return;
      }
      steps := steps + 1;
    }
  }

  /** A cancellation asks to delete a Job only if that Job was seen carrying the labels of
      this task and execution, and only under its UID. Success means the Job was seen
      gone; failure that a call failed, that no attempt was left, or that the Job was seen
      with other labels. */
  method CancelTask(api: ApiServer, name: string, taskHash: string, executionHash: string, deadline: nat) returns (ok: bool)
    requires api.Valid()
    modifies api
    ensures api.Continues() && api.patches == old(api.patches)
    ensures ok ==> SawAbsent(api.past, name, |old(api.past)|)
    ensures api.requests != old(api.requests) ==>
              exists job :: SawSince(api.past, name, job, |old(api.past)|) && job.taskHash == taskHash && job.executionHash == executionHash
                            && OnlyDeletes(old(api.requests), api.requests, name, job.uid)
                            && OnlyRemoves(old(api.removals), api.removals, name, job.uid)
    ensures api.requests == old(api.requests) ==> api.removals == old(api.removals)
    ensures !ok ==> api.failures > old(api.failures) || deadline == 0 || SawForeign(api.past, name, taskHash, executionHash, |old(api.past)|)
  {
    var found, getErr, _ := GetTaskJob(api, name, deadline);
    if getErr == Some(NotFound) {
      return true;
    }
    if getErr.Some? {
      return false;
    }
    var job := found.value;
    if job.executionHash != executionHash || job.taskHash != taskHash {
      return false;
    }
    ghost var seen := api.past;
    var err, _ := DeleteTaskJob(api, name, job.uid, deadline);
    SawSinceGrows(seen, api.past, name, job, |old(api.past)|);
    return err.None?;
  }

  /** In some state from number `since` on, the Job of this name had other labels. */
  ghost predicate SawForeign(past: seq<Cluster>, name: string, taskHash: string, executionHash: string, since: nat) {
    exists i :: since <= i < |past| && name in past[i].jobs
                && !(past[i].jobs[name].taskHash == taskHash && past[i].jobs[name].executionHash == executionHash)
  }

  // ---------- one run ----------

  datatype ContextState = Alive | Cancelled | ObservationInterrupted

  datatype RunResult = Running | Succeeded | Failed(disposition: Disposition, stopFailed: bool)

  /** What the select loop can meet. */
  datatype LoopEvent =
    | ContextEnds(state: ContextState)
    | JobDelivered(sighting: nat)
    | OtherObject
    | WatchClosed(reopened: bool)
    | PodFailure(disposition: Disposition)
    | PodProgress
    | SafetyPoll(deadline: nat, podsListed: bool, podFailure: Option<Disposition>)

  /** Events that end a run whatever the Job's state. */
  predicate Ends(e: LoopEvent) {
    || (e.ContextEnds? && !e.state.Alive?)
    || (e.WatchClosed? && !e.reopened)
    || e.PodFailure?
    || (e.SafetyPoll? && (!e.podsListed || e.podFailure.Some?))
  }

  /** Why a run ends on this event: it is an ending one, the Job was seen finished, another
      Job had the name, the name was absent since the given state, or a poll failed or had
      no attempt left. */
  ghost predicate GivesUp(e: LoopEvent, job: Job, past: seq<Cluster>, since: nat, name: string, failed: bool) {
    || Ends(e) || Terminal(job)
    || SawReplaced(past, name, job.uid, 0) || SawAbsent(past, name, since)
    || failed || (e.SafetyPoll? && e.deadline == 0)
  }

  lemma GivesUpEarlier(e: LoopEvent, job: Job, past: seq<Cluster>, since: nat, earlier: nat, name: string, failed: bool, failedEarlier: bool, given: bool)
    requires earlier <= since && (failed ==> failedEarlier) && (given ==> GivesUp(e, job, past, since, name, failed))
    ensures given ==> GivesUp(e, job, past, earlier, name, failedEarlier)
  {
  }

  /** A complete Job is a success even if it is marked as failed too. */
  function Outcome(job: Job): (res: RunResult)
    ensures job.complete <==> res.Succeeded?
    ensures !job.complete && job.failed <==> res == Failed(ExecutionStopped, false)
    ensures !job.complete && !job.failed <==> res.Running?
  {
    if job.complete then Succeeded
    else if job.failed then Failed(ExecutionStopped, false)
    else Running
  }

  const LOST := Failed(TerminationRequired, false)

  /** One turn of the select loop: the event, the Job tracked before it, the Job that it
      delivered or polled, if any, and what comes of it. */
  datatype Turn = Turn(event: LoopEvent, tracked: Job, seen: Option<Job>, res: RunResult, job: Job, ctx: ContextState)

  /** What a turn must come to. The created Job, delivered or polled, ends the run exactly if
      it is complete or failed: as a success if it is complete, and otherwise as a failure
      after which nothing runs any more. Another Job of that name, a failed poll, a watch
      that does not reopen, a list that fails and the end of the context end the run as
      lost; a Pod failure ends it with its own disposition. */
  predicate TurnOK(t: Turn) {
    var lost, same := t.res == Failed(TerminationRequired, false), t.job == t.tracked;
    match t.event
    case ContextEnds(state) => same && t.seen.None? && (if state.Alive? then t.res.Running? && t.ctx.Alive? else lost && t.ctx == state)
    case JobDelivered(_) =>
      t.ctx.Alive? &&
      if t.seen.None? then t.res.Running? && same
      else if t.seen.value.uid != t.tracked.uid then lost && same
      else
        && t.job == t.seen.value
        && t.res == if t.job.complete then Succeeded else if t.job.failed then Failed(ExecutionStopped, false) else Running
    case OtherObject => t.ctx.Alive? && t.res.Running? && same
    case PodProgress => t.ctx.Alive? && t.res.Running? && same
    case WatchClosed(reopened) => t.ctx.Alive? && same && if reopened then t.res.Running? else lost
    case PodFailure(disposition) => t.ctx.Alive? && same && t.res == Failed(disposition, false)
    case SafetyPoll(_, podsListed, podFailure) =>
      t.ctx.Alive? &&
      if t.seen.None? || t.seen.value.uid != t.tracked.uid then lost && same
      else
        && t.job == t.seen.value
        && if t.job.complete then t.res == Succeeded
           else if t.job.failed then t.res == Failed(ExecutionStopped, false)
           else if !podsListed then lost
           else if podFailure.Some? then t.res == Failed(podFailure.value, false)
           else t.res == Running
  }

  /** One turn of the select loop. */
  method ObserveEvent(api: ApiServer, name: string, tracked: Job, event: LoopEvent) returns (res: RunResult, job: Job, ctx: ContextState, ghost seen: Option<Job>)
    requires api.Valid() && api.Observed(name, tracked)
    modifies api`state, api`past, api`calls, api`failures
    ensures api.Continues()
    ensures job.uid == tracked.uid && api.Observed(name, job)
    ensures TurnOK(Turn(event, tracked, seen, res, job, ctx))
    ensures event.JobDelivered? ==>
              seen == if event.sighting < |api.past| && name in api.past[event.sighting].jobs then Some(api.past[event.sighting].jobs[name]) else None
    ensures event.SafetyPoll? && seen.Some? ==> SawSince(api.past, name, seen.value, |old(api.past)|)
    ensures !res.Running? ==> GivesUp(event, job, api.past, |old(api.past)|, name, api.failures > old(api.failures))
  {
    res, job, ctx, seen := Running, tracked, Alive, None;
    match event {
      case ContextEnds(state) =>
        if !state.Alive? {
          ctx, res := state, LOST;
        }
      case JobDelivered(sighting) =>
        var delivered := api.Deliver(name, sighting);
        seen := delivered;
        SawGrows(old(api.past), api.past, name, job);
        if delivered.Some? && delivered.value.uid != tracked.uid {
          res := LOST;
        } else if delivered.Some? {
          job := delivered.value;
          res := Outcome(job);
        }
      case OtherObject =>
      case PodProgress =>
      case WatchClosed(reopened) =>
        if !reopened {
          res := LOST;
        }
      case PodFailure(disposition) => res := Failed(disposition, false);
      case SafetyPoll(deadline, podsListed, podFailure) =>
        var polled, err, _ := GetTaskJob(api, name, deadline);
        seen := polled;
        SawGrows(old(api.past), api.past, name, job);
        if err.Some? || polled.value.uid != tracked.uid {
          return LOST, job, Alive, seen;
        }
        job := polled.value;
        res := Outcome(job);
        if res.Running? && !podsListed {
          res := LOST;
        } else if res.Running? && podFailure.Some? {
          res := Failed(podFailure.value, false);
        }
    }
  }

  predicate StartsFrom(turns: seq<Turn>, k: nat, created: Job)
    requires k < |turns|
  {
    turns[k].tracked == if k == 0 then created else turns[k - 1].job
  }

  /** The turns of a run over the given events: each starts with the Job of the one before,
      the first with the created one, and all but the last leave the run going. */
  ghost predicate Turns(turns: seq<Turn>, events: seq<LoopEvent>, created: Job) {
    && |turns| <= |events|
    && (forall k :: 0 <= k < |turns| ==> turns[k].event == events[k] && TurnOK(turns[k]))
    && (forall k :: 0 <= k < |turns| ==> StartsFrom(turns, k, created))
    && (forall k :: 0 <= k < |turns| - 1 ==> turns[k].res.Running?)
  }

  /** What a list of turns has come to. */
  ghost predicate SoFar(turns: seq<Turn>, events: seq<LoopEvent>, created: Job, res: RunResult, job: Job, ctx: ContextState) {
    && Turns(turns, events, created)
    && (turns == [] ==> res.Running? && job == created && ctx.Alive?)
    && (turns != [] ==> turns[|turns| - 1].res == res && turns[|turns| - 1].job == job && turns[|turns| - 1].ctx == ctx)
  }

  /** And then the events are over, or the last turn ended the run. */
  ghost predicate EndsWith(turns: seq<Turn>, events: seq<LoopEvent>, created: Job, res: RunResult, job: Job, ctx: ContextState) {
    SoFar(turns, events, created, res, job, ctx) && (res.Running? ==> |turns| == |events| && ctx.Alive?)
  }

  lemma SoFarGrows(turns: seq<Turn>, events: seq<LoopEvent>, created: Job, t: Turn)
    requires SoFar(turns, events, created, Running, t.tracked, Alive) && |turns| < |events| && TurnOK(t) && t.event == events[|turns|]
    ensures SoFar(turns + [t], events, created, t.res, t.job, t.ctx)
  {
    TurnsGrow(turns, events, created, t);
  }

  lemma SoFarEnds(turns: seq<Turn>, events: seq<LoopEvent>, created: Job, res: RunResult, job: Job, ctx: ContextState)
    requires SoFar(turns, events, created, res, job, ctx) && (res.Running? ==> |turns| == |events|)
    ensures EndsWith(turns, events, created, res, job, ctx)
  {
  }

  lemma SuccessIsComplete(turns: seq<Turn>, events: seq<LoopEvent>, created: Job, res: RunResult, job: Job, ctx: ContextState)
    requires EndsWith(turns, events, created, res, job, ctx)
    ensures res.Succeeded? ==> job.complete
    ensures res.Failed? ==> !res.stopFailed
  {
  }

  lemma TurnsGrow(turns: seq<Turn>, events: seq<LoopEvent>, created: Job, t: Turn)
    requires Turns(turns, events, created) && |turns| < |events| && TurnOK(t) && t.event == events[|turns|]
    requires turns == [] ==> t.tracked == created
    requires turns != [] ==> turns[|turns| - 1].res.Running? && t.tracked == turns[|turns| - 1].job
    ensures Turns(turns + [t], events, created)
  {
    var longer := turns + [t];
    forall k | 0 <= k < |longer| ensures StartsFrom(longer, k, created) {
      assert k < |turns| ==> longer[k] == turns[k] && StartsFrom(turns, k, created);
      assert k > 0 ==> longer[k - 1] == turns[k - 1];
    }
  }

  /** The select loop: event after event until one ends the run. The tracked Job always has
      the created UID, the run succeeds only when that Job was seen complete, and observing
      never writes. */
  method ObserveJob(api: ApiServer, name: string, created: Job, events: seq<LoopEvent>) returns (res: RunResult, job: Job, ctx: ContextState, ghost turns: seq<Turn>)
    requires api.Valid() && api.Observed(name, created)
    modifies api`state, api`past, api`calls, api`failures
    ensures api.Continues()
    ensures job.uid == created.uid && api.Observed(name, job)
    ensures EndsWith(turns, events, created, res, job, ctx)
    ensures !res.Running? ==>
              turns != [] && GivesUp(turns[|turns| - 1].event, job, api.past, |old(api.past)|, name, api.failures > old(api.failures))
  {
    res, job, ctx, turns := Running, created, Alive, [];
    var n := 0;
    while n < |events| && res.Running?
      invariant n <= |events| && |turns| == n
      invariant api.Continues()
      invariant job.uid == created.uid && api.Observed(name, job)
      invariant SoFar(turns, events, created, res, job, ctx)
      invariant !res.Running? ==>
                  turns != [] && GivesUp(turns[|turns| - 1].event, job, api.past, |old(api.past)|, name, api.failures > old(api.failures))
    {
      ghost var seen;
      ghost var tracked, since, failed := job, |api.past|, api.failures;
      res, job, ctx, seen := ObserveEvent(api, name, job, events[n]);
      ghost var t := Turn(events[n], tracked, seen, res, job, ctx);
      SoFarGrows(turns, events, created, t);
      turns := turns + [t];
      GivesUpEarlier(events[n], job, api.past, since, |old(api.past)|, name, api.failures > failed, api.failures > old(api.failures), !res.Running?);
      n := n + 1;
    }
    SoFarEnds(turns, events, created, res, job, ctx);
  }

  /** One run with its deferred cleanup, given how the context stands when the cleanup
      tests it. A run whose context ended leaves the Job alone, except that a cancelled
      standby asks for its deletion; an uncancelled failure only asks for expiry, and
      reports a clean stop only if the Job needs none; a success asks for deletion exactly
      for a task with cleanup enabled. Every deletion carries the created UID and every
      patch that took effect was fenced. */
  method ExecuteTask(api: ApiServer, name: string, created: Job, standby: bool, noCleanup: bool, events: seq<LoopEvent>, late: ContextState, deadline: nat)
    returns (res: RunResult, ctx: ContextState, ghost turns: seq<Turn>, ghost observed: RunResult)
    requires api.Valid() && api.Observed(name, created)
    modifies api
    ensures api.Continues()
    ensures exists job, watching :: EndsWith(turns, events, created, observed, job, watching)
                                    && ctx == if watching.Alive? && !observed.Running? then late else watching
    ensures (res.Running? <==> observed.Running?) && (res.Succeeded? <==> observed.Succeeded?)
    ensures res.Failed? ==> observed == Failed(res.disposition, false)
    ensures !res.Running? && (if standby then ctx.Cancelled? else ctx.Alive? && res.Succeeded? && !noCleanup) ==>
              && OnlyDeletes(old(api.requests), api.requests, name, created.uid)
              && OnlyRemoves(old(api.removals), api.removals, name, created.uid)
              && api.patches == old(api.patches)
              && (deadline > 0 ==> api.requests != old(api.requests))
    ensures ctx.Alive? && res.Failed? ==>
              && OnlyPatches(old(api.requests), api.requests, name, created.uid)
              && FencedPatches(old(api.patches), api.patches, name, created.uid)
              && api.removals == old(api.removals)
              && (!res.stopFailed ==> StopSettled(api.past, |old(api.past)|, old(api.patches), api.patches, name, created.uid, res.disposition))
    ensures res.Running? || (if standby then ctx.ObservationInterrupted? || (ctx.Alive? && res.Succeeded?)
                             else !ctx.Alive? || (res.Succeeded? && noCleanup)) ==>
              api.requests == old(api.requests) && api.patches == old(api.patches) && api.removals == old(api.removals)
    ensures res.Succeeded? ==> SawComplete(api.past, name, created.uid)
    ensures res.Failed? && res.stopFailed ==>
              api.failures > old(api.failures) || deadline == 0 || SawReplaced(api.past, name, created.uid, |old(api.past)|)
  {
    var job: Job;
    res, job, ctx, turns := ObserveJob(api, name, created, events);
    observed := res;
    ghost var watching := ctx;
    SuccessIsComplete(turns, events, created, res, job, ctx);
    assert res.Succeeded? ==> SawComplete(api.past, name, created.uid);
    if res.Running? {
      return;
    }
    if ctx.Alive? {
      ctx := late;
    }
    assert EndsWith(turns, events, created, observed, job, watching) && ctx == if watching.Alive? && !observed.Running? then late else watching;
    ghost var seen, done := api.past, api.patches;
    res := CleanUp(api, name, created, job, standby, noCleanup, res, ctx, deadline);
    SawCompleteGrows(seen, api.past, name, created.uid);
    if ctx.Alive? && res.Failed? {
      if res.stopFailed {
        if SawReplaced(api.past, name, created.uid, |seen|) {
          ReplacedEarlier(api.past, name, created.uid, |seen|, |old(api.past)|);
        }
      } else {
        SettledEarlier(api.past, |seen|, |old(api.past)|, done, old(api.patches), api.patches, name, created.uid, res.disposition);
      }
    }
  }

  /** The deferred cleanup, with the Job that was last tracked. */
  method CleanUp(api: ApiServer, name: string, created: Job, job: Job, standby: bool, noCleanup: bool, ended: RunResult, ctx: ContextState, deadline: nat) returns (res: RunResult)
    requires api.Valid() && api.Observed(name, job) && job.uid == created.uid && !ended.Running? && (ended.Failed? ==> !ended.stopFailed)
    modifies api
    ensures api.Continues()
    ensures if ended.Failed? then res.Failed? && res.disposition == ended.disposition else res == ended
    ensures (if standby then ctx.Cancelled? else ctx.Alive? && ended.Succeeded? && !noCleanup) ==>
              && OnlyDeletes(old(api.requests), api.requests, name, created.uid)
              && OnlyRemoves(old(api.removals), api.removals, name, created.uid)
              && api.patches == old(api.patches)
              && (deadline > 0 ==> api.requests != old(api.requests))
    ensures ctx.Alive? && ended.Failed? ==>
              && OnlyPatches(old(api.requests), api.requests, name, created.uid)
              && FencedPatches(old(api.patches), api.patches, name, created.uid)
              && api.removals == old(api.removals)
              && (!res.stopFailed ==> StopSettled(api.past, |old(api.past)|, old(api.patches), api.patches, name, created.uid, ended.disposition))
    ensures (if standby then ctx.ObservationInterrupted? || (ctx.Alive? && ended.Succeeded?)
             else !ctx.Alive? || (ended.Succeeded? && noCleanup)) ==>
              api.requests == old(api.requests) && api.patches == old(api.patches) && api.removals == old(api.removals)
    ensures res.Failed? && res.stopFailed ==>
              ctx.Alive? && (api.failures > old(api.failures) || deadline == 0 || SawReplaced(api.past, name, created.uid, |old(api.past)|))
  {
    res := ended;
    if !ctx.Alive? {
      if standby && !ctx.ObservationInterrupted? {
        var _, _ := DeleteTaskJob(api, name, created.uid, deadline);
      }
      return;
    }
    if res.Failed? {
      var err, _, _ := RequestJobExecutionStop(api, name, job, res.disposition, deadline);
      res := res.(stopFailed := err.Some?);
      return;
    }
    if standby || noCleanup {
      return;
    }
    var _, _ := DeleteTaskJob(api, name, created.uid, deadline);
  }

  ghost predicate SawComplete(past: seq<Cluster>, name: string, uid: nat) {
    exists i :: 0 <= i < |past| && name in past[i].jobs && past[i].jobs[name].uid == uid && past[i].jobs[name].complete
  }

  lemma SawCompleteGrows(past: seq<Cluster>, longer: seq<Cluster>, name: string, uid: nat)
    requires past <= longer
    ensures SawComplete(past, name, uid) ==> SawComplete(longer, name, uid)
  {
    if SawComplete(past, name, uid) {
      var i :| 0 <= i < |past| && name in past[i].jobs && past[i].jobs[name].uid == uid && past[i].jobs[name].complete;
      assert longer[i] == past[i];
    }
  }
}
