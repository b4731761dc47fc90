/** The setup-phase tracker as the object it is: it walks each snapshot and updates its
    maps in place. Every observer is proved to apply exactly what the snapshot says. */
module SetupTracker {
  import opened Options
  import opened Sequences
  import opened SetupPhases
  import opened PodSnapshots

  class Tracker {
    var reported: set<Key>
    var live: map<Key, nat>
    var execution: Option<nat>
    var spans: nat
    var ended: seq<nat>
    var events: seq<SetupEvent>

    constructor ()
      ensures Now() == INITIAL
    {
      reported, live, execution, spans, ended, events := {}, map[], None, 0, [], [];
    }

    function Now(): View
      reads this
    {
      View(reported, live, execution, spans, ended, events)
    }

    method ObserveInterval(key: Key, start: Time, finish: Time)
      modifies this
      ensures Now() == Observe(old(Now()), Interval(key, start, finish))
    {
      if key in reported || start == 0 || (finish != 0 && finish < start) {
        return;
      }
      if key !in live {
        live, spans := live[key := spans], spans + 1;
      }
      if finish != 0 {
        ended := ended + [live[key]];
        live := live - {key};
        reported := reported + {key};
      }
    }

    method Report(name: string, start: Time, finish: Time, isError: bool)
      modifies this
      ensures Now() == Observe(old(Now()), Phase(name, start, finish, isError))
      ensures events == if Event(name) !in old(reported) && start != 0 && finish != 0 && start <= finish
                        then old(events) + [SetupEvent(name, start, finish, isError)] else old(events)
    {
      if Event(name) in reported || start == 0 || finish == 0 || finish < start {
        return;
      }
      ObserveInterval(Event(name), start, finish);
      events := events + [SetupEvent(name, start, finish, isError)];
    }

    /** A key that is reported is not started again. */
    method Begin(name: string, start: Time)
      modifies this
      ensures Now() == Observe(old(Now()), Interval(Event(name), start, 0))
    {
      if Event(name) !in reported {
        ObserveInterval(Event(name), start, 0);
      }
    }

    method ObserveSchedule(pod: Pod)
      modifies this
      ensures Now() == ObserveAll(old(Now()), ScheduleSeen(pod))
    {
      ghost var v := Now();
      for i := 0 to |pod.conditions|
        invariant Now() == v && FirstScheduled(pod.conditions) == FirstScheduled(pod.conditions[i..])
      {
        var c := pod.conditions[i];
        if c.podScheduled && c.holds {
          Report(POD_SCHEDULE, pod.created, c.at, false);
          Single(v, Phase(POD_SCHEDULE, pod.created, c.at, false));
          return;
        }
      }
      Begin(POD_SCHEDULE, pod.created);
      Single(v, Interval(Event(POD_SCHEDULE), pod.created, 0));
    }

    method ObserveInitContainers(pod: Pod)
      modifies this
      ensures Now() == ObserveAll(old(Now()), InitsSeen(pod.initContainers, pod.initStatuses, LastScheduled(pod.conditions)))
    {
      var anchor := FindLastScheduled(pod.conditions);
      ghost var v, whole := Now(), InitsSeen(pod.initContainers, pod.initStatuses, anchor);
      for i := 0 to |pod.initContainers|
        invariant ObserveAll(Now(), InitsSeen(pod.initContainers[i..], pod.initStatuses, anchor)) == ObserveAll(v, whole)
      {
        var c := pod.initContainers[i];
        var t := FindTiming(pod.initStatuses, c.name);
        ghost var rest := pod.initContainers[i..];
        assert rest[0] == c && rest[1..] == pod.initContainers[i + 1..];
        ghost var next := if c.restartsAlways then t.started else t.finished;
        ObserveAllConcat(Now(), InitSeen(c, t, anchor),
                         if Proceeds(c, t) then InitsSeen(rest[1..], pod.initStatuses, next) else []);
        ObserveInit(c, t, anchor);
        if t.started == 0 {
          return;
        }
        if c.restartsAlways {
          anchor := t.started;
          continue;
        }
        if t.finished == 0 || t.finished < t.started || t.failed {
          return;
        }
        anchor := t.finished;
      }
    }

    method ObserveInit(c: InitContainer, t: Timing, anchor: Time)
      modifies this
      ensures Now() == ObserveAll(old(Now()), InitSeen(c, t, anchor))
    {
      ghost var v := Now();
      ObserveInterval(ImagePrepare(c.name), anchor, t.started);
      if t.started == 0 || c.restartsAlways || c.name == SETUP_CONTAINER || IsSidecar(c.name) {
        Single(v, Interval(ImagePrepare(c.name), anchor, t.started));
        return;
      }
      Pair(v, Interval(ImagePrepare(c.name), anchor, t.started), Interval(InitRun(c.name), t.started, t.finished));
      ObserveInterval(InitRun(c.name), t.started, t.finished);
    }

    method ObserveSidecarPrep(pod: Pod)
      modifies this
      ensures Now() == ObserveAll(old(Now()), SidecarsSeen(pod))
    {
      ghost var v := Now();
      var expected := CountSidecars(pod.initContainers);
      if expected == 0 {
        return;
      }
      var c := FindCopies(pod.initStatuses);
      if c.failed || c.terminated == expected {
        Report(SIDECAR_PREP, c.start, c.finish, c.failed);
        Single(v, Phase(SIDECAR_PREP, c.start, c.finish, c.failed));
      } else {
        Begin(SIDECAR_PREP, c.start);
        Single(v, Interval(Event(SIDECAR_PREP), c.start, 0));
      }
    }

    method ObserveSetupCommand(pod: Pod)
      modifies this
      ensures Now() == ObserveAll(old(Now()), SetupSeen(pod.initStatuses))
    {
      ghost var goal := ObserveAll(Now(), SetupSeen(pod.initStatuses));
      for i := 0 to |pod.initStatuses|
        invariant ObserveAll(Now(), SetupSeen(pod.initStatuses[i..])) == goal
      {
        var s := pod.initStatuses[i];
        assert pod.initStatuses[i..][0] == s && pod.initStatuses[i..][1..] == pod.initStatuses[i + 1..];
        if s.name != SETUP_CONTAINER {
          continue;
        }
        ghost var v := Now();
        if s.running.Some? {
          Begin(SETUP_COMMAND, s.running.value);
          Single(v, Interval(Event(SETUP_COMMAND), s.running.value, 0));
        }
        assert Now() == ObserveAll(v, SetupStarts(s));
        if s.terminated.None? {
          ObserveAllConcat(v, SetupStarts(s), SetupSeen(pod.initStatuses[i + 1..]));
          continue;
        }
        var t := s.terminated.value;
        ghost var last := Phase(SETUP_COMMAND, t.started, t.finished, t.exitCode != 0);
        ObserveAllConcat(v, SetupStarts(s), [last]);
        Single(Now(), last);
        Report(SETUP_COMMAND, t.started, t.finished, t.exitCode != 0);
        return;
      }
    }

    method ObserveTaskStart(pod: Pod)
      modifies this
      ensures Now() == ObserveAll(old(Now()), TaskSeen(pod))
    {
      ghost var v := Now();
      var at := FindTaskStart(pod.statuses);
      var anchor := FindStartAnchor(pod);
      if at == 0 {
        var finished := TaskInitFinished(pod);
        if finished {
          Begin(CONTAINER_START, anchor);
          Single(v, Interval(Event(CONTAINER_START), anchor, 0));
        }
        return;
      }
      Pair(v, Phase(CONTAINER_START, anchor, at, false), TaskStarted(at));
      Report(CONTAINER_START, anchor, at, false);
      if execution == None {
        execution, spans := Some(spans), spans + 1;
      }
    }

    /** A snapshot is applied observer by observer. */
    method ObservePod(pod: Pod)
      modifies this
      ensures Now() == ObserveAll(old(Now()), Seen(pod))
    {
      ghost var v := Now();
      ghost var a, b := ScheduleSeen(pod), InitsSeen(pod.initContainers, pod.initStatuses, LastScheduled(pod.conditions));
      ObserveSchedule(pod);
      ObserveInitContainers(pod);
      ObserveAllConcat(v, a, b);
      ObserveSidecarPrep(pod);
      ObserveAllConcat(v, a + b, SidecarsSeen(pod));
      ObserveSetupCommand(pod);
      ObserveAllConcat(v, a + b + SidecarsSeen(pod), SetupSeen(pod.initStatuses));
      ObserveTaskStart(pod);
      ObserveAllConcat(v, a + b + SidecarsSeen(pod) + SetupSeen(pod.initStatuses), TaskSeen(pod));
    }

    method Finish()
      requires OK(Now())
      modifies this
      ensures Finished(old(Now()), Now())
    {
      EndLive();
      ghost var v := Now();
      if execution.Some? {
        ended := ended + [execution.value];
        execution := None;
        EndExecutionKeeps(v);
      }
    }

    method EndLive()
      requires OK(Now())
      modifies this`live, this`ended, this`reported
      ensures OK(Now()) && live == map[] && reported == old(reported) + old(live.Keys) && old(ended) <= ended
    {
      ghost var all := reported + live.Keys;
      while live.Keys != {}
        invariant OK(Now()) && old(ended) <= ended
        invariant reported + live.Keys == all
        decreases |live.Keys|
      {
        var key :| key in live.Keys;
        EndOne(key);
      }
      assert live == map[];
    }

    method EndOne(key: Key)
      requires OK(Now()) && key in live
      modifies this`live, this`ended, this`reported
      ensures OK(Now()) && Now() == End(old(Now()), key)
      ensures reported + live.Keys == old(reported + live.Keys) && |live.Keys| < old(|live.Keys|)
      ensures old(ended) <= ended
    {
      EndKeeps(Now(), key);
      ended := ended + [live[key]];
      live := live - {key};
      reported := reported + {key};
      assert live.Keys == old(live.Keys) - {key};
    }
  }

  lemma EndExecutionKeeps(v: View)
    requires OK(v) && v.execution.Some?
    ensures OK(v.(ended := v.ended + [v.execution.value], execution := None))
  {
    var w := v.(ended := v.ended + [v.execution.value], execution := None);
    forall id: nat | id < w.spans && id !in w.ended ensures Held(w, id) {
      assert Held(v, id);
    }
  }

  /** Everything a sequence of snapshots says. */
  function AllSeen(pods: seq<Pod>): (os: seq<Observation>) {
    if pods == [] then [] else AllSeen(pods[..|pods| - 1]) + Seen(pods[|pods| - 1])
  }

  /** Over any sequence of snapshots followed by the finish: the events are, in order, what
      the first finished observation of each phase says, each once and well timed; no key
      stays live; every key that an observation gave a range for had one span, and the
      execution had one; and the spans ended are exactly the spans opened, each once. */
  method Track(pods: seq<Pod>) returns (t: Tracker, ghost places: seq<nat>)
    ensures OK(t.Now()) && t.live == map[] && t.execution == None
    ensures Ascending(places) && |places| == |t.events| && forall i: nat :: i in places <==> Announces(AllSeen(pods), i)
    ensures forall a :: 0 <= a < |places| ==> Announces(AllSeen(pods), places[a]) && Says(t.events[a], AllSeen(pods)[places[a]])
    ensures NamesDistinct(t.events) && forall i :: 0 <= i < |t.events| ==> WellTimed(t.events[i])
    ensures forall key :: key in t.reported <==> exists i :: 0 <= i < |AllSeen(pods)| && Touches(AllSeen(pods)[i], key)
    ensures t.spans == |t.reported| + if exists i :: 0 <= i < |AllSeen(pods)| && AllSeen(pods)[i].TaskStarted? then 1 else 0
    ensures NoDuplicates(t.ended) && forall id: nat :: id < t.spans <==> id in t.ended
  {
    t := new Tracker();
    for n := 0 to |pods|
      invariant fresh(t) && t.Now() == ObserveAll(INITIAL, AllSeen(pods[..n]))
    {
      t.ObservePod(pods[n]);
      ObserveAllConcat(INITIAL, AllSeen(pods[..n]), Seen(pods[n]));
      assert pods[..n + 1][..n] == pods[..n];
    }
    assert pods[..|pods|] == pods;
    ghost var seen, v := AllSeen(pods), t.Now();
    ObserveAllKeeps(INITIAL, seen);
    t.Finish();
    FinishedIsComplete(seen, t.Now());
    places := EventsAre(seen);
    FinishedKeys(seen, v, t.Now());
  }

  /** The finish closes what was live, so the keys closed are all that were opened. */
  lemma FinishedKeys(os: seq<Observation>, v: View, w: View)
    requires v == ObserveAll(INITIAL, os) && Finished(v, w)
    ensures forall key :: key in w.reported <==> exists i :: 0 <= i < |os| && Touches(os[i], key)
    ensures w.spans == |w.reported| + if exists i :: 0 <= i < |os| && os[i].TaskStarted? then 1 else 0
  {
    forall key ensures key in w.reported <==> exists i :: 0 <= i < |os| && Touches(os[i], key) {
      KeysAre(os, key);
    }
    SpansAre(os);
    assert |v.live.Keys + v.reported| == |v.live.Keys| + |v.reported|;
    assert w.reported == v.live.Keys + v.reported;
  }

  // ---------- small facts ----------

  lemma Single(v: View, o: Observation)
    ensures ObserveAll(v, [o]) == Observe(v, o)
  {
    assert ObserveAll(Observe(v, o), [o][1..]) == Observe(v, o);
  }

  lemma Pair(v: View, o: Observation, p: Observation)
    ensures ObserveAll(v, [o] + [p]) == Observe(Observe(v, o), p)
    ensures ObserveAll(v, [o, p]) == Observe(Observe(v, o), p)
  {
    ObserveAllConcat(v, [o], [p]);
    Single(v, o);
    Single(Observe(v, o), p);
    assert [o] + [p] == [o, p];
  }

  // ---------- walking the snapshot ----------

  method FindLastScheduled(conditions: seq<Condition>) returns (at: Time)
    ensures at == LastScheduled(conditions)
  {
    at := 0;
    for i := 0 to |conditions|
      invariant at == LastScheduled(conditions[..i])
    {
      if conditions[i].podScheduled && conditions[i].holds {
        at := conditions[i].at;
      }
      assert conditions[..i + 1][..i] == conditions[..i];
    }
    assert conditions[..|conditions|] == conditions;
  }

  method FindTiming(statuses: seq<Status>, name: string) returns (t: Timing)
    ensures t == TimingOf(statuses, name)
  {
    var started, finished, failed := 0, 0, false;
    for i := 0 to |statuses|
      invariant Timing(started, finished, failed) == TimingOf(statuses[..i], name)
    {
      assert statuses[..i + 1][..i] == statuses[..i];
      var s := statuses[i];
      if s.name != name {
        continue;
      }
      if s.running.Some? {
        started := s.running.value;
      } else if s.terminated.Some? {
        started, finished := s.terminated.value.started, s.terminated.value.finished;
        failed := s.terminated.value.exitCode != 0;
      }
    }
    assert statuses[..|statuses|] == statuses;
    return Timing(started, finished, failed);
  }

  method CountSidecars(containers: seq<InitContainer>) returns (n: nat)
    ensures n == Sidecars(containers)
  {
    n := 0;
    for i := 0 to |containers|
      invariant n == Sidecars(containers[..i])
    {
      if IsSidecar(containers[i].name) {
        n := n + 1;
      }
      assert containers[..i + 1][..i] == containers[..i];
    }
    assert containers[..|containers|] == containers;
  }

  method FindCopies(statuses: seq<Status>) returns (c: Copies)
    ensures c == CopiesOf(statuses)
  {
    var start, finish, terminated, failed := 0, 0, 0, false;
    for i := 0 to |statuses|
      invariant terminated >= 0 && Copies(start, finish, terminated, failed) == CopiesOf(statuses[..i])
    {
      assert statuses[..i + 1][..i] == statuses[..i];
      var s := statuses[i];
      if !IsSidecar(s.name) {
        continue;
      }
      if s.running.Some? && (start == 0 || s.running.value < start) {
        start := s.running.value;
      }
      if s.terminated.None? {
        continue;
      }
      terminated := terminated + 1;
      var t := s.terminated.value;
      if start == 0 || t.started < start {
        start := t.started;
      }
      if t.finished > finish {
        finish := t.finished;
      }
      if t.exitCode != 0 {
        failed := true;
      }
    }
    assert statuses[..|statuses|] == statuses;
    return Copies(start, finish, terminated, failed);
  }

  method FindTaskStart(statuses: seq<Status>) returns (at: Time)
    ensures at == TaskStart(statuses)
  {
    for i := 0 to |statuses|
      invariant TaskStart(statuses) == TaskStart(statuses[i..])
    {
      var s := statuses[i];
      if s.name != TASK_CONTAINER {
        continue;
      }
      return if s.running.Some? then s.running.value else if s.terminated.Some? then s.terminated.value.started else 0;
    }
    return 0;
  }

  /** `taskInitFinished`. */
  method TaskInitFinished(pod: Pod) returns (finished: bool)
    ensures finished == InitFinished(pod)
  {
    for i := 0 to |pod.initContainers|
      invariant forall k :: 0 <= k < i ==> FinishedInit(pod.initContainers[k], pod.initStatuses)
    {
      var c := pod.initContainers[i];
      if c.restartsAlways {
        continue;
      }
      var done := false;
      for j := 0 to |pod.initStatuses|
        invariant done <==> exists k :: 0 <= k < j && Succeeded(pod.initStatuses[k], c.name)
      {
        var s := pod.initStatuses[j];
        if s.name == c.name && s.terminated.Some? && s.terminated.value.exitCode == 0 {
          assert Succeeded(s, c.name);
          done := true;
        }
      }
      if !done {
        assert !FinishedInit(c, pod.initStatuses);
        return false;
      }
    }
    for i := 0 to |pod.conditions|
      invariant forall k :: 0 <= k < i ==> !Scheduled(pod.conditions[k])
    {
      if pod.conditions[i].podScheduled && pod.conditions[i].holds {
        assert Scheduled(pod.conditions[i]);
        return true;
      }
    }
    return false;
  }

  /** `taskStartAnchor`. */
  method FindStartAnchor(pod: Pod) returns (anchor: Time)
    ensures anchor == StartAnchor(pod)
  {
    anchor := 0;
    for i := 0 to |pod.initStatuses|
      invariant anchor == LastFinish(pod.initStatuses[..i])
    {
      assert pod.initStatuses[..i + 1][..i] == pod.initStatuses[..i];
      var s := pod.initStatuses[i];
      if s.terminated.Some? && s.terminated.value.finished > anchor {
        anchor := s.terminated.value.finished;
      }
    }
    assert pod.initStatuses[..|pod.initStatuses|] == pod.initStatuses;
    if anchor != 0 {
      return;
    }
    for i := 0 to |pod.conditions|
      invariant anchor == 0 && FirstScheduled(pod.conditions) == FirstScheduled(pod.conditions[i..])
    {
      if pod.conditions[i].podScheduled && pod.conditions[i].holds {
        return pod.conditions[i].at;
      }
    }
    return pod.created;
  }
}
