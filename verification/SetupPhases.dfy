/** What observations of a task's setup amount to: every setup event is reported at most
    once, every span that was opened is ended exactly once, and late or repeated
    observations change nothing. */
module SetupPhases {
  import opened Options
  import opened Sequences

  /** Counted from the zero time, which stands for a timestamp that is not set. */
  type Time = nat

  datatype Key = Event(name: string) | ImagePrepare(container: string) | InitRun(container: string)

  /** `Interval` opens the span of a key, and closes it once the finish is known; `Phase`
      moreover reports a setup event; `TaskStarted` opens the execution span. */
  datatype Observation =
    | Interval(key: Key, start: Time, finish: Time)
    | Phase(name: string, start: Time, finish: Time, isError: bool)
    | TaskStarted(at: Time)

  datatype SetupEvent = SetupEvent(name: string, start: Time, finish: Time, isError: bool)

  /** The tracker's state. Spans are numbered as they are opened; `ended` lists them as they
      are ended, and `events` the setup events as they are reported. */
  datatype View = View(
    reported: set<Key>,
    live: map<Key, nat>,
    execution: Option<nat>,
    spans: nat,
    ended: seq<nat>,
    events: seq<SetupEvent>)

  const INITIAL := View({}, map[], None, 0, [], [])

  predicate Supported(start: Time, finish: Time) {
    start != 0 && (finish != 0 ==> start <= finish)
  }

  function Open(v: View, key: Key): View {
    v.(live := v.live[key := v.spans], spans := v.spans + 1)
  }

  function End(v: View, key: Key): View
    requires key in v.live
  {
    v.(live := v.live - {key}, ended := v.ended + [v.live[key]], reported := v.reported + {key})
  }

  function ObserveInterval(v: View, key: Key, start: Time, finish: Time): View {
    if key in v.reported || !Supported(start, finish) then v
    else
      var started := if key in v.live then v else Open(v, key);
      if finish == 0 then started else End(started, key)
  }

  function Observe(v: View, o: Observation): View {
    match o
    case Interval(key, start, finish) => ObserveInterval(v, key, start, finish)
    case Phase(name, start, finish, isError) =>
      if Event(name) in v.reported || finish == 0 || !Supported(start, finish) then v
      else
        var w := ObserveInterval(v, Event(name), start, finish);
        w.(events := w.events + [SetupEvent(name, start, finish, isError)])
    case TaskStarted(_) =>
      if v.execution.Some? then v else v.(execution := Some(v.spans), spans := v.spans + 1)
  }

  function ObserveAll(v: View, os: seq<Observation>): View
    decreases |os|
  {
    if os == [] then v else ObserveAll(Observe(v, os[0]), os[1..])
  }

  lemma {:induction false} ObserveAllConcat(v: View, a: seq<Observation>, b: seq<Observation>)
    ensures ObserveAll(v, a + b) == ObserveAll(ObserveAll(v, a), b)
    decreases |a|
  {
    if a == [] {
      assert a + b == b;
    } else {
      assert (a + b)[1..] == a[1..] + b;
      ObserveAllConcat(Observe(v, a[0]), a[1..], b);
    }
  }

  // ---------- the invariant ----------

  ghost predicate Held(v: View, id: nat) {
    v.execution == Some(id) || exists k :: k in v.live && v.live[k] == id
  }

  /** A span that was opened is the live one of exactly one key, or the execution span, or
      ended, and never two of these. */
  ghost predicate SpansOK(v: View) {
    && NoDuplicates(v.ended)
    && (forall i :: 0 <= i < |v.ended| ==> v.ended[i] < v.spans)
    && (forall k :: k in v.live ==> v.live[k] < v.spans && v.live[k] !in v.ended && v.execution != Some(v.live[k]))
    && (forall k, l :: k in v.live && l in v.live && v.live[k] == v.live[l] ==> k == l)
    && (v.execution.Some? ==> v.execution.value < v.spans && v.execution.value !in v.ended)
    && (forall id: nat :: id < v.spans ==> Held(v, id) || id in v.ended)
    && (forall k :: k in v.live ==> k !in v.reported)
  }

  predicate WellTimed(e: SetupEvent) {
    e.start != 0 && e.finish != 0 && e.start <= e.finish
  }

  predicate NamesDistinct(events: seq<SetupEvent>) {
    forall i, j :: 0 <= i < j < |events| ==> events[i].name != events[j].name
  }

  ghost predicate EventsOK(events: seq<SetupEvent>, reported: set<Key>) {
    && NamesDistinct(events)
    && (forall i :: 0 <= i < |events| ==> WellTimed(events[i]) && Event(events[i].name) in reported)
  }

  ghost predicate OK(v: View) {
    SpansOK(v) && EventsOK(v.events, v.reported)
  }

  lemma OpenKeeps(v: View, key: Key)
    requires SpansOK(v) && key !in v.live && key !in v.reported
    ensures SpansOK(Open(v, key))
  {
    var w := Open(v, key);
    assert w.live[key] == v.spans;
    forall id: nat | id < w.spans && id !in w.ended ensures Held(w, id) {
      if id < v.spans && v.execution != Some(id) {
        assert Held(v, id);
        var k :| k in v.live && v.live[k] == id;
        assert k in w.live && w.live[k] == id;
      }
    }
  }

  lemma EndKeeps(v: View, key: Key)
    requires SpansOK(v) && key in v.live
    ensures SpansOK(End(v, key))
  {
    var w := End(v, key);
    forall id: nat | id < w.spans && id !in w.ended ensures Held(w, id) {
      assert Held(v, id);
      if v.execution != Some(id) {
        var k :| k in v.live && v.live[k] == id;
        assert k in w.live && w.live[k] == id;
      }
    }
  }

  lemma IntervalKeeps(v: View, key: Key, start: Time, finish: Time)
    requires OK(v)
    ensures OK(ObserveInterval(v, key, start, finish))
  {
    if key !in v.reported && Supported(start, finish) {
      if key !in v.live {
        OpenKeeps(v, key);
      }
      var w := if key in v.live then v else Open(v, key);
      EndKeeps(w, key);
    }
  }

  lemma ExecutionKeeps(v: View)
    requires SpansOK(v) && v.execution.None?
    ensures SpansOK(v.(execution := Some(v.spans), spans := v.spans + 1))
  {
    var w := v.(execution := Some(v.spans), spans := v.spans + 1);
    forall id: nat | id < w.spans && id !in w.ended ensures Held(w, id) {
      if id < v.spans {
        assert Held(v, id);
      }
    }
  }

  lemma PhaseKeeps(v: View, name: string, start: Time, finish: Time, isError: bool)
    requires OK(v)
    ensures OK(Observe(v, Phase(name, start, finish, isError)))
  {
    if !(Event(name) in v.reported || finish == 0 || !Supported(start, finish)) {
      var w := ObserveInterval(v, Event(name), start, finish);
      IntervalKeeps(v, Event(name), start, finish);
      assert Event(name) in w.reported && w.events == v.events;
      SameSpans(w, w.(events := w.events + [SetupEvent(name, start, finish, isError)]));
    }
  }

  /** Reporting an event does not touch spans. */
  lemma SameSpans(v: View, w: View)
    requires SpansOK(v) && w == v.(events := w.events)
    ensures SpansOK(w)
  {
    forall id: nat | id < w.spans && id !in w.ended ensures Held(w, id) {
      assert Held(v, id);
    }
  }

  /** Every observation keeps the invariant. */
  lemma ObserveKeeps(v: View, o: Observation)
    requires OK(v)
    ensures OK(Observe(v, o))
  {
    match o
    case Interval(key, start, finish) => IntervalKeeps(v, key, start, finish);
    case Phase(name, start, finish, isError) => PhaseKeeps(v, name, start, finish, isError);
    case TaskStarted(_) =>
      if v.execution.None? {
        ExecutionKeeps(v);
      }
  }

  lemma {:induction false} ObserveAllKeeps(v: View, os: seq<Observation>)
    requires OK(v)
    ensures OK(ObserveAll(v, os))
    decreases |os|
  {
    if os != [] {
      ObserveKeeps(v, os[0]);
      ObserveAllKeeps(Observe(v, os[0]), os[1..]);
    }
  }

  // ---------- late and repeated observations ----------

  /** Nothing more will come of this observation. */
  predicate Spent(v: View, o: Observation) {
    match o
    case Interval(key, start, finish) => key in v.reported || !Supported(start, finish) || (key in v.live && finish == 0)
    case Phase(name, start, finish, _) => Event(name) in v.reported || finish == 0 || !Supported(start, finish)
    case TaskStarted(_) => v.execution.Some?
  }

  lemma SpentChangesNothing(v: View, o: Observation)
    ensures Spent(v, o) <==> Observe(v, o) == v
    ensures Spent(Observe(v, o), o)
  {
    if o.Phase? && !Spent(v, o) {
      assert |Observe(v, o).events| > |v.events|;
    } else if o.Interval? && !Spent(v, o) {
      assert o.key in Observe(v, o).reported || Observe(v, o).spans > v.spans;
    }
  }

  lemma SpentStays(v: View, o: Observation, other: Observation)
    requires Spent(v, o)
    ensures Spent(Observe(v, other), o)
  {
  }

  predicate AllSpent(v: View, os: seq<Observation>) {
    forall i :: 0 <= i < |os| ==> Spent(v, os[i])
  }

  lemma {:induction false} SpentStaysAll(v: View, o: Observation, others: seq<Observation>)
    requires Spent(v, o)
    ensures Spent(ObserveAll(v, others), o)
    decreases |others|
  {
    if others != [] {
      SpentStays(v, o, others[0]);
      SpentStaysAll(Observe(v, others[0]), o, others[1..]);
    }
  }

  /** A snapshot leaves nothing to be gained from itself. */
  lemma {:induction false} ObserveAllSpends(v: View, os: seq<Observation>)
    ensures AllSpent(ObserveAll(v, os), os)
    decreases |os|
  {
    if os != [] {
      var w := Observe(v, os[0]);
      SpentChangesNothing(v, os[0]);
      SpentStaysAll(w, os[0], os[1..]);
      ObserveAllSpends(w, os[1..]);
      forall i | 0 <= i < |os| ensures Spent(ObserveAll(v, os), os[i]) {
        if i > 0 {
          assert os[i] == os[1..][i - 1];
        }
      }
    }
  }

  lemma {:induction false} AllSpentChangesNothing(v: View, os: seq<Observation>)
    requires AllSpent(v, os)
    ensures ObserveAll(v, os) == v
    decreases |os|
  {
    if os != [] {
      assert Spent(v, os[0]);
      SpentChangesNothing(v, os[0]);
      AllSpentChangesNothing(v, os[1..]);
    }
  }

  /** A snapshot that is delivered again, however late and whatever came in between,
      changes nothing. */
  lemma LateDeliveryChangesNothing(v: View, snapshot: seq<Observation>, between: seq<Observation>)
    ensures
      var later := ObserveAll(ObserveAll(v, snapshot), between);
      ObserveAll(later, snapshot) == later
  {
    var w := ObserveAll(v, snapshot);
    var later := ObserveAll(w, between);
    ObserveAllSpends(v, snapshot);
    forall i | 0 <= i < |snapshot| ensures Spent(later, snapshot[i]) {
      SpentStaysAll(w, snapshot[i], between);
    }
    AllSpentChangesNothing(later, snapshot);
  }

  // ---------- what the observations amount to ----------

  /** The observation gives a range for the key: it has started, and if it has finished, not
      before. */
  predicate Touches(o: Observation, key: Key) {
    match o
    case Interval(k, start, finish) => k == key && start != 0 && (finish == 0 || start <= finish)
    case Phase(name, start, finish, _) => key == Event(name) && start != 0 && finish != 0 && start <= finish
    case TaskStarted(_) => false
  }

  /** And it has finished. */
  predicate Closes(o: Observation, key: Key) {
    Touches(o, key) && (o.Interval? ==> o.finish != 0)
  }

  ghost predicate TouchedIn(os: seq<Observation>, key: Key) {
    exists i :: 0 <= i < |os| && Touches(os[i], key)
  }

  ghost predicate ClosedIn(os: seq<Observation>, key: Key) {
    exists i :: 0 <= i < |os| && Closes(os[i], key)
  }

  lemma TouchedSnoc(os: seq<Observation>, o: Observation, key: Key)
    ensures TouchedIn(os + [o], key) <==> TouchedIn(os, key) || Touches(o, key)
    ensures ClosedIn(os + [o], key) <==> ClosedIn(os, key) || Closes(o, key)
  {
    var longer := os + [o];
    assert longer[|os|] == o && forall i :: 0 <= i < |os| ==> longer[i] == os[i];
    if i :| 0 <= i < |os| && Touches(os[i], key) {
      assert Touches(longer[i], key);
    }
    if i :| 0 <= i < |os| && Closes(os[i], key) {
      assert Closes(longer[i], key);
    }
  }

  lemma ObserveSnoc(v: View, os: seq<Observation>, o: Observation)
    ensures ObserveAll(v, os + [o]) == Observe(ObserveAll(v, os), o)
  {
    ObserveAllConcat(v, os, [o]);
    assert ObserveAll(Observe(ObserveAll(v, os), o), [o][1..]) == Observe(ObserveAll(v, os), o);
  }

  /** One observation closes and opens the keys it is about, and no other. */
  lemma ObserveKeys(v: View, o: Observation, key: Key)
    ensures var w := Observe(v, o);
            && (key in w.reported <==> key in v.reported || Closes(o, key))
            && (key in w.live || key in w.reported <==> key in v.live || key in v.reported || Touches(o, key))
  {
  }

  /** A key has been opened exactly if some observation gave a range for it, and closed
      exactly if some observation gave a finished one. */
  lemma {:induction false} KeysAre(os: seq<Observation>, key: Key)
    ensures var w := ObserveAll(INITIAL, os);
            && (key in w.reported <==> exists i :: 0 <= i < |os| && Closes(os[i], key))
            && (key in w.live || key in w.reported <==> exists i :: 0 <= i < |os| && Touches(os[i], key))
    decreases |os|
  {
    assert (ClosedIn(os, key) <==> exists i :: 0 <= i < |os| && Closes(os[i], key))
        && (TouchedIn(os, key) <==> exists i :: 0 <= i < |os| && Touches(os[i], key));
    if os != [] {
      var front, last := os[..|os| - 1], os[|os| - 1];
      assert os == front + [last];
      KeysAre(front, key);
      assert (ClosedIn(front, key) <==> exists i :: 0 <= i < |front| && Closes(front[i], key))
          && (TouchedIn(front, key) <==> exists i :: 0 <= i < |front| && Touches(front[i], key));
      TouchedSnoc(front, last, key);
      ObserveSnoc(INITIAL, front, last);
      ObserveKeys(ObserveAll(INITIAL, front), last, key);
    }
  }

  /** One span per key that was opened, and one for the execution once its start was seen. */
  ghost predicate Counted(v: View, started: bool) {
    && v.spans == |v.live| + |v.reported| + (if started then 1 else 0)
    && |v.ended| == |v.reported| && v.live.Keys !! v.reported
    && (v.execution.Some? <==> started)
  }

  lemma IntervalCounts(v: View, key: Key, start: Time, finish: Time, started: bool)
    requires Counted(v, started)
    ensures Counted(ObserveInterval(v, key, start, finish), started)
  {
    if key !in v.reported && Supported(start, finish) {
      var w := if key in v.live then v else Open(v, key);
      assert w.live.Keys == v.live.Keys + {key};
      assert Counted(w, started);
      if finish != 0 {
        assert End(w, key).live.Keys == w.live.Keys - {key};
      }
    }
  }

  lemma {:induction false} SpansAre(os: seq<Observation>)
    ensures var w := ObserveAll(INITIAL, os);
            && w.spans == |w.live| + |w.reported| + (if exists i :: 0 <= i < |os| && os[i].TaskStarted? then 1 else 0)
            && |w.ended| == |w.reported|
            && (w.execution.Some? <==> exists i :: 0 <= i < |os| && os[i].TaskStarted?)
    ensures Counted(ObserveAll(INITIAL, os), exists i :: 0 <= i < |os| && os[i].TaskStarted?)
    decreases |os|
  {
    if os != [] {
      var front, last := os[..|os| - 1], os[|os| - 1];
      assert os == front + [last];
      SpansAre(front);
      ObserveSnoc(INITIAL, front, last);
      var was, now := exists i :: 0 <= i < |front| && front[i].TaskStarted?, exists i :: 0 <= i < |os| && os[i].TaskStarted?;
      if was {
        var i :| 0 <= i < |front| && front[i].TaskStarted?;
        assert os[i].TaskStarted?;
      }
      assert now <==> was || last.TaskStarted?;
      ObserveCounts(ObserveAll(INITIAL, front), last, was);
    }
  }

  lemma ObserveCounts(v: View, o: Observation, started: bool)
    requires Counted(v, started)
    ensures Counted(Observe(v, o), started || o.TaskStarted?)
  {
    match o
    case Interval(key, start, finish) => IntervalCounts(v, key, start, finish, started);
    case Phase(name, start, finish, _) => IntervalCounts(v, Event(name), start, finish, started);
    case TaskStarted(_) =>
  }

  /** The observation is the first finished one for its event. */
  ghost predicate Announces(os: seq<Observation>, i: nat) {
    && i < |os| && os[i].Phase? && os[i].start != 0 && os[i].finish != 0 && os[i].start <= os[i].finish
    && forall j :: 0 <= j < i ==> !Closes(os[j], Event(os[i].name))
  }

  /** What the event of a phase says. */
  predicate Says(e: SetupEvent, o: Observation) {
    o.Phase? && e.name == o.name && e.start == o.start && e.finish == o.finish && e.isError == o.isError
  }

  /** These are the places of the announcing observations, and the events say what they do. */
  ghost predicate EventsFrom(os: seq<Observation>, places: seq<nat>, events: seq<SetupEvent>) {
    && Ascending(places) && |places| == |events|
    && (forall i: nat :: i in places <==> Announces(os, i))
    && (forall a :: 0 <= a < |places| ==> Announces(os, places[a]) && Says(events[a], os[places[a]]))
  }

  lemma AnnouncesSnoc(os: seq<Observation>, o: Observation)
    ensures forall i: nat :: i < |os| ==> (Announces(os + [o], i) <==> Announces(os, i))
    ensures Announces(os + [o], |os|) <==> o.Phase? && Closes(o, Event(o.name)) && !ClosedIn(os, Event(o.name))
  {
    var longer := os + [o];
    assert longer[|os|] == o && forall i :: 0 <= i < |os| ==> longer[i] == os[i];
    if o.Phase? && ClosedIn(os, Event(o.name)) {
      var j :| 0 <= j < |os| && Closes(os[j], Event(o.name));
      assert Closes(longer[j], Event(o.name));
    }
  }

  lemma EventsSame(os: seq<Observation>, o: Observation, places: seq<nat>, events: seq<SetupEvent>)
    requires EventsFrom(os, places, events) && !Announces(os + [o], |os|)
    ensures EventsFrom(os + [o], places, events)
  {
    AnnouncesSnoc(os, o);
    EventsStay(os, o, places, events);
  }

  lemma EventsStay(os: seq<Observation>, o: Observation, places: seq<nat>, events: seq<SetupEvent>)
    requires EventsFrom(os, places, events)
    ensures forall a :: 0 <= a < |places| ==> places[a] < |os| && Announces(os + [o], places[a]) && Says(events[a], (os + [o])[places[a]])
  {
    AnnouncesSnoc(os, o);
    forall a | 0 <= a < |places| ensures places[a] < |os| && Announces(os + [o], places[a]) && Says(events[a], (os + [o])[places[a]]) {
      assert Announces(os, places[a]) && (os + [o])[places[a]] == os[places[a]];
    }
  }

  lemma EventsMore(os: seq<Observation>, o: Observation, places: seq<nat>, events: seq<SetupEvent>)
    requires EventsFrom(os, places, events) && Announces(os + [o], |os|)
    ensures o.Phase? && EventsFrom(os + [o], places + [|os|], events + [SetupEvent(o.name, o.start, o.finish, o.isError)])
  {
    AnnouncesSnoc(os, o);
    EventsStay(os, o, places, events);
    PlaceSnoc(places, |os|);
    var longer, places', events' := os + [o], places + [|os|], events + [SetupEvent(o.name, o.start, o.finish, o.isError)];
    forall a | 0 <= a < |places'| ensures Announces(longer, places'[a]) && Says(events'[a], longer[places'[a]]) {
      if a < |places| {
        assert places'[a] == places[a] && events'[a] == events[a];
      }
    }
  }

  lemma ObserveEvents(v: View, o: Observation)
    ensures Observe(v, o).events ==
            if o.Phase? && Event(o.name) !in v.reported && Closes(o, Event(o.name))
            then v.events + [SetupEvent(o.name, o.start, o.finish, o.isError)] else v.events
  {
  }

  /** The events reported are, in order, what the first finished observation of each event
      says: its name, its start and its finish, and whether it is an error. */
  lemma {:induction false} EventsAre(os: seq<Observation>) returns (places: seq<nat>)
    ensures var events := ObserveAll(INITIAL, os).events;
            && Ascending(places) && |places| == |events|
            && (forall i: nat :: i in places <==> Announces(os, i))
            && (forall a :: 0 <= a < |places| ==> Announces(os, places[a]) && Says(events[a], os[places[a]]))
    decreases |os|
  {
    if os == [] {
      places := [];
    } else {
      var front, last := os[..|os| - 1], os[|os| - 1];
      assert os == front + [last];
      places := EventsAre(front);
      ObserveSnoc(INITIAL, front, last);
      var v := ObserveAll(INITIAL, front);
      ObserveEvents(v, last);
      AnnouncesSnoc(front, last);
      if last.Phase? {
        KeysAre(front, Event(last.name));
      }
      if Announces(os, |front|) {
        EventsMore(front, last, places, v.events);
        places := places + [|front|];
      } else {
        EventsSame(front, last, places, v.events);
      }
      assert EventsFrom(os, places, ObserveAll(INITIAL, os).events);
    }
  }

  // ---------- the finish ----------

  /** Everything that was live is closed and every open span ended, in some order. */
  ghost predicate Finished(v: View, w: View) {
    && OK(w) && w.live == map[] && w.execution.None?
    && w.reported == v.reported + v.live.Keys && w.events == v.events && w.spans == v.spans
    && v.ended <= w.ended
  }

  /** Over any observations followed by the finish, each setup event was reported at most
      once and well timed, and the spans ended are exactly the spans opened, each once. */
  lemma FinishedIsComplete(os: seq<Observation>, w: View)
    requires Finished(ObserveAll(INITIAL, os), w)
    ensures NamesDistinct(w.events) && forall i :: 0 <= i < |w.events| ==> WellTimed(w.events[i])
    ensures NoDuplicates(w.ended) && forall id: nat :: id < w.spans <==> id in w.ended
  {
    forall id: nat | id < w.spans ensures id in w.ended {
      assert !Held(w, id);
    }
  }
}
