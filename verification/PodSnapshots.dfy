/** What a pod status snapshot says about the setup phases of its task, computed from the
    timestamps that the pod carries. */
module PodSnapshots {
  import opened Options
  import opened Sequences
  import opened SetupPhases

  datatype Condition = Condition(podScheduled: bool, holds: bool, at: Time)
  datatype Termination = Termination(started: Time, finished: Time, exitCode: int)
  datatype Status = Status(name: string, running: Option<Time>, terminated: Option<Termination>)
  datatype InitContainer = InitContainer(name: string, restartsAlways: bool)

  datatype Pod = Pod(
    created: Time,
    conditions: seq<Condition>,
    initContainers: seq<InitContainer>,
    initStatuses: seq<Status>,
    statuses: seq<Status>)

  const POD_SCHEDULE := "setup_worker_pod_schedule"
  const SIDECAR_PREP := "setup_worker_sidecar_prep"
  const SETUP_COMMAND := "setup_worker_setup_command"
  const CONTAINER_START := "setup_worker_container_start"
  const TASK_CONTAINER := "task"
  const SETUP_CONTAINER := "setup"
  const SIDECAR_PREFIX := "copy-sidecar-"

  predicate Scheduled(c: Condition) {
    c.podScheduled && c.holds
  }

  predicate IsSidecar(name: string) {
    SIDECAR_PREFIX <= name
  }

  // ---------- scheduling ----------

  function FirstScheduled(conditions: seq<Condition>): (at: Option<Time>)
    ensures at.None? <==> forall i :: 0 <= i < |conditions| ==> !Scheduled(conditions[i])
  {
    if conditions == [] then None
    else if Scheduled(conditions[0]) then Some(conditions[0].at)
    else FirstScheduled(conditions[1..])
  }

  function LastScheduled(conditions: seq<Condition>): (at: Time) {
    if conditions == [] then 0
    else
      var last := conditions[|conditions| - 1];
      if Scheduled(last) then last.at else LastScheduled(conditions[..|conditions| - 1])
  }

  function ScheduleSeen(pod: Pod): seq<Observation> {
    match FirstScheduled(pod.conditions)
    case Some(at) => [Phase(POD_SCHEDULE, pod.created, at, false)]
    case None => [Interval(Event(POD_SCHEDULE), pod.created, 0)]
  }

  // ---------- init containers ----------

  datatype Timing = Timing(started: Time, finished: Time, failed: bool)

  function Timed(t: Timing, s: Status, name: string): Timing {
    if s.name != name then t
    else if s.running.Some? then t.(started := s.running.value)
    else if s.terminated.Some? then
      Timing(s.terminated.value.started, s.terminated.value.finished, s.terminated.value.exitCode != 0)
    else t
  }

  /** The statuses of one container, in order; later ones override earlier ones. */
  function TimingOf(statuses: seq<Status>, name: string): Timing {
    if statuses == [] then Timing(0, 0, false)
    else Timed(TimingOf(statuses[..|statuses| - 1], name), statuses[|statuses| - 1], name)
  }

  /** Whether the next init container may start, and what it waits for. */
  predicate Proceeds(c: InitContainer, t: Timing) {
    t.started != 0 && (c.restartsAlways || (t.finished != 0 && t.started <= t.finished && !t.failed))
  }

  function InitSeen(c: InitContainer, t: Timing, anchor: Time): seq<Observation> {
    [Interval(ImagePrepare(c.name), anchor, t.started)] +
    if t.started == 0 || c.restartsAlways || c.name == SETUP_CONTAINER || IsSidecar(c.name) then []
    else [Interval(InitRun(c.name), t.started, t.finished)]
  }

  function InitsSeen(containers: seq<InitContainer>, statuses: seq<Status>, anchor: Time): seq<Observation> {
    if containers == [] then []
    else
      var c := containers[0];
      var t := TimingOf(statuses, c.name);
      InitSeen(c, t, anchor) +
      if Proceeds(c, t) then InitsSeen(containers[1..], statuses, if c.restartsAlways then t.started else t.finished)
      else []
  }

  // ---------- sidecars and the setup command ----------

  function Sidecars(containers: seq<InitContainer>): (n: nat) {
    if containers == [] then 0
    else Sidecars(containers[..|containers| - 1]) + if IsSidecar(containers[|containers| - 1].name) then 1 else 0
  }

  datatype Copies = Copies(start: Time, finish: Time, terminated: nat, failed: bool)

  function Earlier(start: Time, at: Time): Time {
    if start == 0 || at < start then at else start
  }

  function Copied(c: Copies, s: Status): Copies {
    if !IsSidecar(s.name) then c
    else
      var start := if s.running.Some? then Earlier(c.start, s.running.value) else c.start;
      match s.terminated
      case None => c.(start := start)
      case Some(t) =>
        Copies(Earlier(start, t.started), if t.finished > c.finish then t.finished else c.finish, c.terminated + 1, c.failed || t.exitCode != 0)
  }

  function CopiesOf(statuses: seq<Status>): Copies {
    if statuses == [] then Copies(0, 0, 0, false)
    else Copied(CopiesOf(statuses[..|statuses| - 1]), statuses[|statuses| - 1])
  }

  function SidecarsSeen(pod: Pod): seq<Observation> {
    var expected := Sidecars(pod.initContainers);
    var c := CopiesOf(pod.initStatuses);
    if expected == 0 then []
    else if c.failed || c.terminated == expected then [Phase(SIDECAR_PREP, c.start, c.finish, c.failed)]
    else [Interval(Event(SIDECAR_PREP), c.start, 0)]
  }

  function SetupStarts(s: Status): seq<Observation> {
    if s.running.Some? then [Interval(Event(SETUP_COMMAND), s.running.value, 0)] else []
  }

  function SetupSeen(statuses: seq<Status>): seq<Observation> {
    if statuses == [] then []
    else
      var s := statuses[0];
      if s.name != SETUP_CONTAINER then SetupSeen(statuses[1..])
      else if s.terminated.Some? then
        SetupStarts(s) + [Phase(SETUP_COMMAND, s.terminated.value.started, s.terminated.value.finished, s.terminated.value.exitCode != 0)]
      else SetupStarts(s) + SetupSeen(statuses[1..])
  }

  // ---------- the task container ----------

  predicate FinishedInit(c: InitContainer, statuses: seq<Status>) {
    c.restartsAlways || exists i :: 0 <= i < |statuses| && Succeeded(statuses[i], c.name)
  }

  predicate Succeeded(s: Status, name: string) {
    s.name == name && s.terminated.Some? && s.terminated.value.exitCode == 0
  }

  /** Every init container that ends has ended well, and the pod is scheduled. */
  predicate InitFinished(pod: Pod) {
    && (forall i :: 0 <= i < |pod.initContainers| ==> FinishedInit(pod.initContainers[i], pod.initStatuses))
    && FirstScheduled(pod.conditions).Some?
  }

  function LastFinish(statuses: seq<Status>): (at: Time)
    ensures forall i :: 0 <= i < |statuses| && statuses[i].terminated.Some? ==> statuses[i].terminated.value.finished <= at
    ensures at >= 0
    ensures at != 0 ==> exists i :: 0 <= i < |statuses| && statuses[i].terminated.Some? && statuses[i].terminated.value.finished == at
  {
    if statuses == [] then 0
    else
      var last := statuses[|statuses| - 1];
      var at := LastFinish(statuses[..|statuses| - 1]);
      if last.terminated.Some? && last.terminated.value.finished > at then last.terminated.value.finished else at
  }

  function StartAnchor(pod: Pod): (at: Time) {
    var finish := LastFinish(pod.initStatuses);
    if finish != 0 then finish
    else match FirstScheduled(pod.conditions)
         case Some(t) => t
         case None => pod.created
  }

  function TaskStart(statuses: seq<Status>): (at: Time) {
    if statuses == [] then 0
    else
      var s := statuses[0];
      if s.name != TASK_CONTAINER then TaskStart(statuses[1..])
      else if s.running.Some? then s.running.value
      else if s.terminated.Some? then s.terminated.value.started
      else 0
  }

  function TaskSeen(pod: Pod): seq<Observation> {
    var at := TaskStart(pod.statuses);
    if at != 0 then [Phase(CONTAINER_START, StartAnchor(pod), at, false), TaskStarted(at)]
    else if InitFinished(pod) then [Interval(Event(CONTAINER_START), StartAnchor(pod), 0)]
    else []
  }

  /** Everything one snapshot says, in the order in which it is looked at. */
  function Seen(pod: Pod): seq<Observation> {
    ScheduleSeen(pod) + InitsSeen(pod.initContainers, pod.initStatuses, LastScheduled(pod.conditions))
    + SidecarsSeen(pod) + SetupSeen(pod.initStatuses) + TaskSeen(pod)
  }

  // ---------- what these amount to ----------

  /** The first scheduling condition that is true, or none. */
  lemma {:induction false} FirstScheduledIs(conditions: seq<Condition>)
    ensures var at := FirstScheduled(conditions);
            || (at.None? && forall i :: 0 <= i < |conditions| ==> !(conditions[i].podScheduled && conditions[i].holds))
            || exists i :: && 0 <= i < |conditions| && conditions[i].podScheduled && conditions[i].holds && at == Some(conditions[i].at)
                           && forall j :: 0 <= j < i ==> !(conditions[j].podScheduled && conditions[j].holds)
    decreases |conditions|
  {
    if conditions != [] && !Scheduled(conditions[0]) {
      var rest := conditions[1..];
      FirstScheduledIs(rest);
      if i :| 0 <= i < |rest| && Scheduled(rest[i]) && FirstScheduled(rest) == Some(rest[i].at) && forall j :: 0 <= j < i ==> !(rest[j].podScheduled && rest[j].holds) {
        assert conditions[i + 1] == rest[i];
        assert forall j :: 0 < j < i + 1 ==> conditions[j] == rest[j - 1];
      } else {
        assert forall i :: 0 < i < |conditions| ==> conditions[i] == rest[i - 1];
      }
    } else if conditions != [] {
      assert conditions[0].podScheduled && conditions[0].holds && FirstScheduled(conditions) == Some(conditions[0].at);
    }
  }

  /** The last one, or the zero time. */
  lemma {:induction false} LastScheduledIs(conditions: seq<Condition>)
    ensures var at := LastScheduled(conditions);
            || (at == 0 && forall i :: 0 <= i < |conditions| ==> !(conditions[i].podScheduled && conditions[i].holds))
            || exists i :: && 0 <= i < |conditions| && conditions[i].podScheduled && conditions[i].holds && at == conditions[i].at
                           && forall j :: i < j < |conditions| ==> !(conditions[j].podScheduled && conditions[j].holds)
    decreases |conditions|
  {
    if conditions != [] {
      var n := |conditions| - 1;
      LastScheduledIs(conditions[..n]);
    }
  }

  /** The status of this container tells when it started. */
  predicate TellsStart(s: Status, name: string) {
    s.name == name && (s.running.Some? || s.terminated.Some?)
  }

  /** It tells how it ended. */
  predicate TellsEnd(s: Status, name: string) {
    s.name == name && s.running.None? && s.terminated.Some?
  }

  /** This is the last status that tells when the container started, or how it ended. */
  ghost predicate LastStart(statuses: seq<Status>, name: string, i: nat) {
    i < |statuses| && TellsStart(statuses[i], name) && forall j :: i < j < |statuses| ==> !TellsStart(statuses[j], name)
  }

  ghost predicate LastEnd(statuses: seq<Status>, name: string, i: nat) {
    i < |statuses| && TellsEnd(statuses[i], name) && forall j :: i < j < |statuses| ==> !TellsEnd(statuses[j], name)
  }

  lemma LastSnoc(statuses: seq<Status>, name: string, i: nat)
    requires statuses != []
    ensures !TellsStart(statuses[|statuses| - 1], name) && LastStart(statuses[..|statuses| - 1], name, i) ==> LastStart(statuses, name, i)
    ensures !TellsEnd(statuses[|statuses| - 1], name) && LastEnd(statuses[..|statuses| - 1], name, i) ==> LastEnd(statuses, name, i)
  {
    assert forall j :: 0 <= j < |statuses| - 1 ==> statuses[..|statuses| - 1][j] == statuses[j];
  }

  /** A container started when the last status that tells so says. */
  lemma {:induction false} StartIs(statuses: seq<Status>, name: string) returns (i: nat)
    ensures var t := TimingOf(statuses, name);
            if exists k :: 0 <= k < |statuses| && TellsStart(statuses[k], name) then
              && LastStart(statuses, name, i)
              && t.started == if statuses[i].running.Some? then statuses[i].running.value else statuses[i].terminated.value.started
            else t.started == 0
    decreases |statuses|
  {
    i := 0;
    if statuses != [] {
      var n := |statuses| - 1;
      if TellsStart(statuses[n], name) {
        i := n;
      } else {
        i := StartIs(statuses[..n], name);
        LastSnoc(statuses, name, i);
        assert TimingOf(statuses, name) == TimingOf(statuses[..n], name);
        assert forall k :: 0 <= k < n ==> statuses[..n][k] == statuses[k];
      }
    }
  }

  /** It ended, and failed or not, when the last status that shows it ended and not running
      says. */
  lemma {:induction false} EndIs(statuses: seq<Status>, name: string) returns (i: nat)
    ensures var t := TimingOf(statuses, name);
            if exists k :: 0 <= k < |statuses| && TellsEnd(statuses[k], name) then
              && LastEnd(statuses, name, i)
              && t.finished == statuses[i].terminated.value.finished && t.failed == (statuses[i].terminated.value.exitCode != 0)
            else t.finished == 0 && !t.failed
    decreases |statuses|
  {
    i := 0;
    if statuses != [] {
      var n := |statuses| - 1;
      if TellsEnd(statuses[n], name) {
        i := n;
      } else {
        i := EndIs(statuses[..n], name);
        LastSnoc(statuses, name, i);
        OtherKeepsEnd(statuses, name);
        assert forall k :: 0 <= k < n ==> statuses[..n][k] == statuses[k];
      }
    }
  }

  lemma OtherKeepsEnd(statuses: seq<Status>, name: string)
    requires statuses != [] && !TellsEnd(statuses[|statuses| - 1], name)
    ensures var t, u := TimingOf(statuses, name), TimingOf(statuses[..|statuses| - 1], name); t.finished == u.finished && t.failed == u.failed
  {
  }

  /** The init containers before this one let it start: each has started, and, unless it
      keeps running, ended well. */
  ghost predicate Reached(containers: seq<InitContainer>, statuses: seq<Status>, j: nat)
    requires j <= |containers|
  {
    forall i :: 0 <= i < j ==>
      var t := TimingOf(statuses, containers[i].name);
      t.started != 0 && (containers[i].restartsAlways || (t.finished != 0 && t.started <= t.finished && !t.failed))
  }

  /** What an init container waits for: the one before it to end, or to start if it keeps
      running. */
  function AnchorAt(containers: seq<InitContainer>, statuses: seq<Status>, first: Time, j: nat): (at: Time)
    requires j < |containers|
  {
    if j == 0 then first
    else
      var t := TimingOf(statuses, containers[j - 1].name);
      if containers[j - 1].restartsAlways then t.started else t.finished
  }

  /** What a container's timing gives: its preparation, and, for one that ends and is neither
      the setup container nor a copy container, its run. */
  predicate OfInit(o: Observation, c: InitContainer, t: Timing, anchor: Time) {
    || o == Interval(ImagePrepare(c.name), anchor, t.started)
    || (&& t.started != 0 && !c.restartsAlways && c.name != "setup" && !("copy-sidecar-" <= c.name)
        && o == Interval(InitRun(c.name), t.started, t.finished))
  }

  lemma InitSeenIs(c: InitContainer, t: Timing, anchor: Time, o: Observation)
    ensures o in InitSeen(c, t, anchor) <==> OfInit(o, c, t, anchor)
  {
  }

  /** An observation comes from the init containers exactly if it is one of a container that
      all before it let start. */
  ghost predicate OfInits(o: Observation, containers: seq<InitContainer>, statuses: seq<Status>, first: Time) {
    exists j :: 0 <= j < |containers| && Reached(containers, statuses, j)
                && OfInit(o, containers[j], TimingOf(statuses, containers[j].name), AnchorAt(containers, statuses, first, j))
  }

  lemma {:induction false} InitsSeenAre(containers: seq<InitContainer>, statuses: seq<Status>, first: Time, o: Observation)
    ensures o in InitsSeen(containers, statuses, first) <==> OfInits(o, containers, statuses, first)
    decreases |containers|
  {
    if containers != [] {
      var c, rest := containers[0], containers[1..];
      var t := TimingOf(statuses, c.name);
      var next := if c.restartsAlways then t.started else t.finished;
      InitSeenIs(c, t, first, o);
      if Proceeds(c, t) {
        InitsSeenAre(rest, statuses, next, o);
        OfInitsTail(o, containers, statuses, first, next);
      } else {
        OfInitsHead(o, containers, statuses, first);
      }
    }
  }

  lemma OfInitsHead(o: Observation, containers: seq<InitContainer>, statuses: seq<Status>, first: Time)
    requires containers != [] && !Proceeds(containers[0], TimingOf(statuses, containers[0].name))
    ensures OfInits(o, containers, statuses, first) <==> OfInit(o, containers[0], TimingOf(statuses, containers[0].name), first)
  {
    if j :| 0 < j < |containers| && Reached(containers, statuses, j) {
      assert false;
    }
    assert Reached(containers, statuses, 0);
  }

  lemma OfInitsTail(o: Observation, containers: seq<InitContainer>, statuses: seq<Status>, first: Time, next: Time)
    requires containers != []
    requires var c, t := containers[0], TimingOf(statuses, containers[0].name); Proceeds(c, t) && next == if c.restartsAlways then t.started else t.finished
    ensures OfInits(o, containers, statuses, first) <==>
              OfInit(o, containers[0], TimingOf(statuses, containers[0].name), first) || OfInits(o, containers[1..], statuses, next)
  {
    var rest := containers[1..];
    assert Reached(containers, statuses, 0);
    forall j | 0 < j < |containers|
      ensures containers[j] == rest[j - 1] && AnchorAt(containers, statuses, first, j) == AnchorAt(rest, statuses, next, j - 1)
      ensures Reached(containers, statuses, j) <==> Reached(rest, statuses, j - 1)
    {
      ReachedTail(containers, statuses, j);
    }
    if OfInits(o, rest, statuses, next) {
      var k :| 0 <= k < |rest| && Reached(rest, statuses, k) && OfInit(o, rest[k], TimingOf(statuses, rest[k].name), AnchorAt(rest, statuses, next, k));
      assert Reached(containers, statuses, k + 1) && containers[k + 1] == rest[k];
    }
  }

  lemma ReachedTail(containers: seq<InitContainer>, statuses: seq<Status>, j: nat)
    requires 0 < j <= |containers| && Proceeds(containers[0], TimingOf(statuses, containers[0].name))
    ensures Reached(containers, statuses, j) <==> Reached(containers[1..], statuses, j - 1)
  {
    var rest := containers[1..];
    assert forall i :: 0 <= i < j - 1 ==> rest[i] == containers[i + 1];
    if Reached(rest, statuses, j - 1) {
      forall i | 0 <= i < j
        ensures var t := TimingOf(statuses, containers[i].name); t.started != 0 && (containers[i].restartsAlways || (t.finished != 0 && t.started <= t.finished && !t.failed))
      {
        assert i > 0 ==> containers[i] == rest[i - 1];
      }
    }
  }

  // ---------- the copy containers ----------

  function CopyContainers(containers: seq<InitContainer>): (places: set<nat>) {
    set i: nat | i < |containers| && "copy-sidecar-" <= containers[i].name
  }

  lemma {:induction false} SidecarsAre(containers: seq<InitContainer>)
    ensures Sidecars(containers) == |CopyContainers(containers)|
    decreases |containers|
  {
    if containers != [] {
      var n := |containers| - 1;
      SidecarsAre(containers[..n]);
      assert CopyContainers(containers) == CopyContainers(containers[..n]) + if IsSidecar(containers[n].name) then {n} else {};
    }
  }

  /** The times at which copy containers are reported to have started, in order. */
  function CopyStarts(statuses: seq<Status>): (times: seq<Time>) {
    if statuses == [] then [] else CopyStarts(statuses[..|statuses| - 1]) + StartsOf(statuses[|statuses| - 1])
  }

  function StartsOf(s: Status): (times: seq<Time>) {
    if !("copy-sidecar-" <= s.name) then []
    else (if s.running.Some? then [s.running.value] else []) + (if s.terminated.Some? then [s.terminated.value.started] else [])
  }

  /** The earliest of the times from the given place on, where it starts afresh. */
  predicate EarliestFrom(at: Time, times: seq<Time>, k: nat) {
    && k <= |times| && (k > 0 ==> times[k - 1] == 0) && (forall i :: k <= i < |times| ==> times[i] != 0 && at <= times[i])
    && if k == |times| then at == 0 else at in times[k..]
  }

  /** The earliest of these times; an unset time makes it start afresh. */
  ghost predicate EarliestOf(at: Time, times: seq<Time>) {
    exists k: nat :: EarliestFrom(at, times, k)
  }

  lemma EarliestSnoc(at: Time, times: seq<Time>, next: Time)
    requires EarliestOf(at, times)
    ensures EarliestOf(Earlier(at, next), times + [next])
  {
    var k: nat :| EarliestFrom(at, times, k);
    var longer := times + [next];
    if next == 0 {
      assert EarliestFrom(0, longer, |longer|);
    } else {
      assert longer[k..] == times[k..] + [next];
      assert EarliestFrom(Earlier(at, next), longer, k);
    }
  }

  predicate EndedCopy(s: Status) {
    "copy-sidecar-" <= s.name && s.terminated.Some?
  }

  function EndedCopies(statuses: seq<Status>): (places: set<nat>) {
    set i: nat | i < |statuses| && EndedCopy(statuses[i])
  }

  /** The phase of the copy containers goes from their earliest start to their latest finish,
      counts those that have ended, and is an error if one of them failed. */
  lemma {:induction false} CopiesAre(statuses: seq<Status>)
    ensures var c := CopiesOf(statuses);
            && EarliestOf(c.start, CopyStarts(statuses))
            && (forall i :: 0 <= i < |statuses| && EndedCopy(statuses[i]) ==> statuses[i].terminated.value.finished <= c.finish)
            && (c.finish != 0 ==> exists i :: 0 <= i < |statuses| && EndedCopy(statuses[i]) && statuses[i].terminated.value.finished == c.finish)
            && c.terminated == |EndedCopies(statuses)|
            && (c.failed <==> exists i :: 0 <= i < |statuses| && EndedCopy(statuses[i]) && statuses[i].terminated.value.exitCode != 0)
    decreases |statuses|
  {
    if statuses == [] {
      assert EarliestFrom(0, [], 0);
    } else {
      var n := |statuses| - 1;
      CopiesAre(statuses[..n]);
      CopyStartsNext(statuses);
      CopiesCount(statuses);
      CopiesFailed(statuses);
      CopiesFinish(statuses);
    }
  }

  lemma CopyStartsNext(statuses: seq<Status>)
    requires statuses != [] && EarliestOf(CopiesOf(statuses[..|statuses| - 1]).start, CopyStarts(statuses[..|statuses| - 1]))
    ensures EarliestOf(CopiesOf(statuses).start, CopyStarts(statuses))
  {
    var front, s := statuses[..|statuses| - 1], statuses[|statuses| - 1];
    CopiesNext(statuses);
    StartsNext(CopiesOf(front).start, CopyStarts(front), s);
  }

  lemma StartsNext(at: Time, times: seq<Time>, s: Status)
    requires EarliestOf(at, times)
    ensures EarliestOf(NextStart(at, s), times + StartsOf(s))
  {
    if !IsSidecar(s.name) {
      assert times + [] == times;
    } else {
      RunningNext(at, times, s);
    }
  }

  lemma RunningNext(at: Time, times: seq<Time>, s: Status)
    requires EarliestOf(at, times) && IsSidecar(s.name)
    ensures EarliestOf(NextStart(at, s), times + StartsOf(s))
  {
    var start, longer := at, times;
    if s.running.Some? {
      EarliestSnoc(at, times, s.running.value);
      start, longer := Earlier(at, s.running.value), times + [s.running.value];
    }
    if s.terminated.Some? {
      EarliestSnoc(start, longer, s.terminated.value.started);
      assert longer + [s.terminated.value.started] == times + StartsOf(s);
    } else {
      assert longer == times + StartsOf(s);
    }
  }

  lemma CopiesCount(statuses: seq<Status>)
    requires statuses != []
    requires var front := statuses[..|statuses| - 1]; CopiesOf(front).terminated == |EndedCopies(front)|
    ensures CopiesOf(statuses).terminated == |EndedCopies(statuses)|
  {
    var n := |statuses| - 1;
    assert EndedCopies(statuses) == EndedCopies(statuses[..n]) + if EndedCopy(statuses[n]) then {n} else {};
    CopiesNext(statuses);
  }

  function NextStart(at: Time, s: Status): (start: Time) {
    if !IsSidecar(s.name) then at
    else
      var start := if s.running.Some? then Earlier(at, s.running.value) else at;
      if s.terminated.Some? then Earlier(start, s.terminated.value.started) else start
  }

  lemma CopiesNext(statuses: seq<Status>)
    requires statuses != []
    ensures var c, d, s := CopiesOf(statuses[..|statuses| - 1]), CopiesOf(statuses), statuses[|statuses| - 1];
            && d.start == NextStart(c.start, s)
            && d.terminated == c.terminated + (if EndedCopy(s) then 1 else 0)
            && (d.failed <==> c.failed || (EndedCopy(s) && s.terminated.value.exitCode != 0))
            && d.finish == (if EndedCopy(s) && s.terminated.value.finished > c.finish then s.terminated.value.finished else c.finish)
  {
  }

  lemma CopiesFailed(statuses: seq<Status>)
    requires statuses != []
    requires var front := statuses[..|statuses| - 1];
             CopiesOf(front).failed <==> exists i :: 0 <= i < |front| && EndedCopy(front[i]) && front[i].terminated.value.exitCode != 0
    ensures CopiesOf(statuses).failed <==> exists i :: 0 <= i < |statuses| && EndedCopy(statuses[i]) && statuses[i].terminated.value.exitCode != 0
  {
    var n := |statuses| - 1;
    var front := statuses[..n];
    CopiesNext(statuses);
    assert forall i :: 0 <= i < n ==> front[i] == statuses[i];
    if i :| 0 <= i < |statuses| && EndedCopy(statuses[i]) && statuses[i].terminated.value.exitCode != 0 {
      assert i < n ==> EndedCopy(front[i]) && front[i].terminated.value.exitCode != 0;
    }
  }

  lemma CopiesFinish(statuses: seq<Status>)
    requires statuses != []
    requires var front := statuses[..|statuses| - 1];
             && (forall i :: 0 <= i < |front| && EndedCopy(front[i]) ==> front[i].terminated.value.finished <= CopiesOf(front).finish)
             && (CopiesOf(front).finish != 0 ==> exists i :: 0 <= i < |front| && EndedCopy(front[i]) && front[i].terminated.value.finished == CopiesOf(front).finish)
    ensures forall i :: 0 <= i < |statuses| && EndedCopy(statuses[i]) ==> statuses[i].terminated.value.finished <= CopiesOf(statuses).finish
    ensures CopiesOf(statuses).finish != 0 ==> exists i :: 0 <= i < |statuses| && EndedCopy(statuses[i]) && statuses[i].terminated.value.finished == CopiesOf(statuses).finish
  {
    var n := |statuses| - 1;
    var front := statuses[..n];
    CopiesNext(statuses);
    assert forall i :: 0 <= i < n ==> front[i] == statuses[i];
    if EndedCopy(statuses[n]) && statuses[n].terminated.value.finished == CopiesOf(statuses).finish {
    } else if CopiesOf(statuses).finish != 0 {
      var i :| 0 <= i < |front| && EndedCopy(front[i]) && front[i].terminated.value.finished == CopiesOf(front).finish;
      assert EndedCopy(statuses[i]) && statuses[i].terminated.value.finished == CopiesOf(statuses).finish;
    }
  }

  /** A pod without copy containers shows nothing of the phase; otherwise it is over once all
      of them have ended, or one failed, and has begun before. */
  lemma SidecarsSeenAre(pod: Pod)
    ensures
      var expected := |CopyContainers(pod.initContainers)|;
      var c := CopiesOf(pod.initStatuses);
      SidecarsSeen(pod) ==
      if expected == 0 then []
      else if c.failed || c.terminated == expected then [Phase("setup_worker_sidecar_prep", c.start, c.finish, c.failed)]
      else [Interval(Event("setup_worker_sidecar_prep"), c.start, 0)]
  {
    SidecarsAre(pod.initContainers);
  }

  // ---------- the setup command and the task container ----------

  predicate EndedSetup(s: Status) {
    s.name == "setup" && s.terminated.Some?
  }

  /** What one status of the setup container gives: the beginning of the phase if it shows
      it running, and its end if it shows it ended. */
  predicate OfStatus(o: Observation, s: Status) {
    s.name == "setup" &&
    (|| (s.running.Some? && o == Interval(Event("setup_worker_setup_command"), s.running.value, 0))
     || (s.terminated.Some? && o == Phase("setup_worker_setup_command", s.terminated.value.started, s.terminated.value.finished, s.terminated.value.exitCode != 0)))
  }

  /** This status gives it, and no status before it shows the setup container ended. */
  ghost predicate OfSetupAt(o: Observation, statuses: seq<Status>, i: nat) {
    i < |statuses| && OfStatus(o, statuses[i]) && forall j :: 0 <= j < i ==> !EndedSetup(statuses[j])
  }

  /** The statuses count up to the first one that shows the setup container ended. */
  lemma {:induction false} SetupSeenAre(statuses: seq<Status>, o: Observation)
    ensures o in SetupSeen(statuses) <==> exists i: nat :: OfSetupAt(o, statuses, i)
    decreases |statuses|
  {
    if statuses != [] {
      SetupSeenAre(statuses[1..], o);
      SetupHead(o, statuses);
      if i: nat :| OfSetupAt(o, statuses[1..], i) {
        SetupTail(o, statuses, i);
      }
      if i: nat :| OfSetupAt(o, statuses, i) && i > 0 {
        SetupTail(o, statuses, i - 1);
      }
    }
  }

  lemma SetupHead(o: Observation, statuses: seq<Status>)
    requires statuses != []
    ensures o in SetupSeen(statuses) <==> OfStatus(o, statuses[0]) || (!EndedSetup(statuses[0]) && o in SetupSeen(statuses[1..]))
    ensures OfSetupAt(o, statuses, 0) <==> OfStatus(o, statuses[0])
    ensures EndedSetup(statuses[0]) ==> forall i: nat :: OfSetupAt(o, statuses, i) ==> i == 0
  {
  }

  lemma SetupTail(o: Observation, statuses: seq<Status>, i: nat)
    requires statuses != []
    ensures !EndedSetup(statuses[0]) ==> (OfSetupAt(o, statuses, i + 1) <==> OfSetupAt(o, statuses[1..], i))
  {
    var rest := statuses[1..];
    if OfSetupAt(o, statuses, i + 1) {
      forall j | 0 <= j < i ensures !EndedSetup(rest[j]) {
        assert rest[j] == statuses[j + 1];
      }
    }
    if OfSetupAt(o, rest, i) && !EndedSetup(statuses[0]) {
      forall j | 0 <= j < i + 1 ensures !EndedSetup(statuses[j]) {
        assert j > 0 ==> statuses[j] == rest[j - 1];
      }
    }
  }

  /** The first status of the task container decides when it started, even if it has ended. */
  lemma {:induction false} TaskStartIs(statuses: seq<Status>)
    ensures var at := TaskStart(statuses);
            || (at == 0 && forall i :: 0 <= i < |statuses| ==> statuses[i].name != "task")
            || exists i :: && 0 <= i < |statuses| && statuses[i].name == "task" && (forall j :: 0 <= j < i ==> statuses[j].name != "task")
                           && at == if statuses[i].running.Some? then statuses[i].running.value
                                    else if statuses[i].terminated.Some? then statuses[i].terminated.value.started else 0
    decreases |statuses|
  {
    if statuses != [] && statuses[0].name != "task" {
      var rest := statuses[1..];
      TaskStartIs(rest);
      assert forall i :: 0 < i < |statuses| ==> statuses[i] == rest[i - 1];
      if i :| 0 <= i < |rest| && rest[i].name == "task" && (forall j :: 0 <= j < i ==> rest[j].name != "task") {
        assert statuses[i + 1] == rest[i];
        assert forall j :: 0 <= j < i + 1 ==> statuses[j].name != "task";
      }
    } else if statuses != [] {
      assert statuses[0].name == "task";
    }
  }

  /** The start of the task container counts from the last finish of an init container, or
      else from the scheduling, or else from the creation of the pod; before it started,
      from then on once every init container that ends has ended well. */
  lemma TaskSeenAre(pod: Pod)
    ensures
      var at, finish, scheduled := TaskStart(pod.statuses), LastFinish(pod.initStatuses), FirstScheduled(pod.conditions);
      var anchor := if finish != 0 then finish else if scheduled.Some? then scheduled.value else pod.created;
      var initialized := scheduled.Some? && forall c :: c in pod.initContainers ==>
        c.restartsAlways || exists s :: s in pod.initStatuses && s.name == c.name && s.terminated.Some? && s.terminated.value.exitCode == 0;
      TaskSeen(pod) ==
      if at != 0 then [Phase("setup_worker_container_start", anchor, at, false), TaskStarted(at)]
      else if initialized then [Interval(Event("setup_worker_container_start"), anchor, 0)]
      else []
  {
    forall c | c in pod.initContainers
      ensures FinishedInit(c, pod.initStatuses) <==>
              c.restartsAlways || exists s :: s in pod.initStatuses && s.name == c.name && s.terminated.Some? && s.terminated.value.exitCode == 0
    {
      if s :| s in pod.initStatuses && s.name == c.name && s.terminated.Some? && s.terminated.value.exitCode == 0 {
        var i :| 0 <= i < |pod.initStatuses| && pod.initStatuses[i] == s;
        assert Succeeded(pod.initStatuses[i], c.name);
      }
    }
  }

  /** A pod waits to be scheduled from its creation until its first true scheduling condition. */
  lemma ScheduleSeenIs(pod: Pod)
    ensures
      var at := FirstScheduled(pod.conditions);
      ScheduleSeen(pod) ==
      if at.Some? then [Phase("setup_worker_pod_schedule", pod.created, at.value, false)]
      else [Interval(Event("setup_worker_pod_schedule"), pod.created, 0)]
  {
  }
}
