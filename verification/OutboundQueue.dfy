/** The queue in front of the connection's write loop: any number of senders and closers
    meet at one mutex, and the write loop receives at any time. */
module OutboundQueue {

  datatype Message = Message(sender: nat)

  /** Program counters of `Send` and of `Close`. A `Sent` sender was told that its message
      was taken, a `Refused` one that it was not. */
  datatype Caller =
    | SendWaits | SendHolds | SendOffers | SendUnlocks(taken: bool) | Sent | Refused
    | CloseWaits | CloseHolds | CloseMarked | CloseUnlocks | Closed

  /** `accepted` lists every message that entered the channel and `received` those that the
      write loop took out; `faults` counts sends on a closed channel and second closes,
      either of which would stop the program. */
  datatype State = State(
    callers: map<nat, Caller>,
    locked: bool,
    closed: bool,
    channelClosed: bool,
    capacity: nat,
    buffer: seq<Message>,
    accepted: seq<Message>,
    received: seq<Message>,
    faults: nat)

  predicate Holds(c: Caller) {
    c.SendHolds? || c.SendOffers? || c.SendUnlocks? || c.CloseHolds? || c.CloseMarked? || c.CloseUnlocks?
  }

  function Put(s: State, t: nat): State {
    if s.channelClosed then s.(faults := s.faults + 1)
    else s.(buffer := s.buffer + [Message(t)], accepted := s.accepted + [Message(t)])
  }

  function CloseChannel(s: State): State {
    if s.channelClosed then s.(faults := s.faults + 1) else s.(channelClosed := true)
  }

  function Move(s: State, t: nat, c: Caller): State {
    s.(callers := s.callers[t := c])
  }

  ghost predicate CallerStep(s: State, s': State, t: nat)
    requires t in s.callers
  {
    match s.callers[t]
    case SendWaits => !s.locked && s' == Move(s, t, SendHolds).(locked := true)
    case SendHolds => s' == Move(s, t, if s.closed then SendUnlocks(false) else SendOffers)
    case SendOffers =>
      || s' == Move(s, t, SendUnlocks(false))
      || ((s.channelClosed || |s.buffer| < s.capacity) && s' == Move(Put(s, t), t, SendUnlocks(true)))
    case SendUnlocks(taken) => s' == Move(s, t, if taken then Sent else Refused).(locked := false)
    case CloseWaits => !s.locked && s' == Move(s, t, CloseHolds).(locked := true)
    case CloseHolds => s' == if s.closed then Move(s, t, CloseUnlocks) else Move(s, t, CloseMarked).(closed := true)
    case CloseMarked => s' == Move(CloseChannel(s), t, CloseUnlocks)
    case CloseUnlocks => s' == Move(s, t, Closed).(locked := false)
    case _ => false
  }

  ghost predicate Arrives(s: State, s': State, t: nat) {
    t !in s.callers && (s' == Move(s, t, SendWaits) || s' == Move(s, t, CloseWaits))
  }

  predicate Receives(s: State, s': State) {
    s.buffer != [] && s' == s.(buffer := s.buffer[1..], received := s.received + [s.buffer[0]])
  }

  ghost predicate Step(s: State, s': State) {
    || Receives(s, s')
    || (exists t: nat :: Arrives(s, s', t))
    || (exists t: nat :: t in s.callers && CallerStep(s, s', t))
  }

  predicate Init(s: State) {
    s.callers == map[] && !s.locked && !s.closed && !s.channelClosed && s.buffer == [] && s.accepted == [] && s.received == [] && s.faults == 0
  }

  // ---------- the invariant ----------

  /** One caller holds the mutex at a time, and one does whenever it is locked. */
  ghost predicate MutexOK(callers: map<nat, Caller>, locked: bool) {
    && (forall t :: t in callers && Holds(callers[t]) ==> locked)
    && (locked ==> exists t :: t in callers && Holds(callers[t]))
    && (forall t, u :: t in callers && u in callers && Holds(callers[t]) && Holds(callers[u]) ==> t == u)
  }

  /** The flag and the channel agree except for the closer in between, and a sender that
      offers has seen the flag down. */
  ghost predicate ClosingOK(callers: map<nat, Caller>, closed: bool, channelClosed: bool) {
    && (channelClosed ==> closed)
    && (forall t :: t in callers && callers[t].SendOffers? ==> !closed)
    && (forall t :: t in callers && callers[t].CloseMarked? ==> closed && !channelClosed)
    && (closed && !channelClosed ==> exists t :: t in callers && callers[t].CloseMarked?)
    && (forall t :: t in callers && (callers[t].CloseUnlocks? || callers[t].Closed?) ==> channelClosed)
  }

  predicate Taken(c: Caller) {
    c == SendUnlocks(true) || c.Sent?
  }

  /** A message is in the channel's history exactly when its sender is told so. */
  ghost predicate AnswersOK(callers: map<nat, Caller>, accepted: seq<Message>) {
    && (forall i, j :: 0 <= i < j < |accepted| ==> accepted[i] != accepted[j])
    && (forall t: nat :: Message(t) in accepted <==> t in callers && Taken(callers[t]))
  }

  ghost predicate Inv(s: State) {
    && MutexOK(s.callers, s.locked)
    && ClosingOK(s.callers, s.closed, s.channelClosed)
    && AnswersOK(s.callers, s.accepted)
    && s.accepted == s.received + s.buffer && |s.buffer| <= s.capacity
    && s.faults == 0
  }

  lemma StepInv(s: State, s': State)
    requires Inv(s) && Step(s, s')
    ensures Inv(s')
  {
    if Receives(s, s') {
      ReceiveInv(s, s');
    } else if t: nat :| Arrives(s, s', t) {
      ArriveInv(s, s', t);
    } else {
      var t: nat :| t in s.callers && CallerStep(s, s', t);
      CallerStepInv(s, s', t);
    }
  }

  lemma ReceiveInv(s: State, s': State)
    requires Inv(s) && Receives(s, s')
    ensures Inv(s')
  {
    assert s.received + s.buffer == s'.received + s'.buffer;
  }

  lemma ArriveInv(s: State, s': State, t: nat)
    requires Inv(s) && Arrives(s, s', t)
    ensures Inv(s')
  {
    assert s'.callers == s.callers[t := s'.callers[t]];
    ArriveMutex(s.callers, s.locked, s.closed, s.channelClosed, t, s'.callers[t]);
  }

  lemma ArriveMutex(callers: map<nat, Caller>, locked: bool, closed: bool, channelClosed: bool, t: nat, c: Caller)
    requires MutexOK(callers, locked) && ClosingOK(callers, closed, channelClosed) && t !in callers && (c.SendWaits? || c.CloseWaits?)
    ensures MutexOK(callers[t := c], locked) && ClosingOK(callers[t := c], closed, channelClosed)
  {
    if locked {
      var u :| u in callers && Holds(callers[u]);
      assert Holds(callers[t := c][u]);
    }
    if closed && !channelClosed {
      var u :| u in callers && callers[u].CloseMarked?;
      assert callers[t := c][u].CloseMarked?;
    }
  }

  lemma CallerStepInv(s: State, s': State, t: nat)
    requires Inv(s) && t in s.callers && CallerStep(s, s', t)
    ensures Inv(s')
  {
    assert s'.callers == s.callers[t := s'.callers[t]];
    MutexStep(s, s', t);
    AnswersStep(s, s', t);
    if s.callers[t].SendOffers? && s'.callers[t] == SendUnlocks(true) {
      assert s.received + (s.buffer + [Message(t)]) == s.received + s.buffer + [Message(t)];
    }
  }

  lemma MutexStep(s: State, s': State, t: nat)
    requires Inv(s) && t in s.callers && CallerStep(s, s', t)
    ensures MutexOK(s'.callers, s'.locked) && ClosingOK(s'.callers, s'.closed, s'.channelClosed)
  {
    forall u | u in s'.callers && u != t ensures u in s.callers && s'.callers[u] == s.callers[u] {
    }
    assert s'.locked ==> Holds(s'.callers[t]);
  }

  lemma AnswersStep(s: State, s': State, t: nat)
    requires Inv(s) && t in s.callers && CallerStep(s, s', t)
    ensures AnswersOK(s'.callers, s'.accepted)
  {
    if s'.accepted == s.accepted {
      SameAnswers(s.callers, s.accepted, t, s'.callers[t]);
    } else {
      NewAnswer(s.callers, s.accepted, t);
    }
  }

  lemma SameAnswers(callers: map<nat, Caller>, accepted: seq<Message>, t: nat, c: Caller)
    requires AnswersOK(callers, accepted) && t in callers && Taken(c) == Taken(callers[t])
    ensures AnswersOK(callers[t := c], accepted)
  {
  }

  lemma NewAnswer(callers: map<nat, Caller>, accepted: seq<Message>, t: nat)
    requires AnswersOK(callers, accepted) && t in callers && !Taken(callers[t])
    ensures AnswersOK(callers[t := SendUnlocks(true)], accepted + [Message(t)])
  {
    assert Message(t) !in accepted;
  }

  // ---------- whole runs ----------

  ghost predicate StepsAt(run: seq<State>, i: nat)
    requires i + 1 < |run|
  {
    Step(run[i], run[i + 1])
  }

  ghost predicate IsRun(run: seq<State>) {
    && |run| > 0 && Init(run[0])
    && (forall i: nat :: i + 1 < |run| ==> StepsAt(run, i))
  }

  lemma {:induction false} RunInv(run: seq<State>, i: nat)
    requires IsRun(run) && i < |run|
    ensures Inv(run[i])
    decreases i
  {
    if i > 0 {
      RunInv(run, i - 1);
      assert StepsAt(run, i - 1);
      StepInv(run[i - 1], run[i]);
    }
  }

  /** In every interleaving nobody sends on a closed channel or closes it twice; what the
      write loop has received is, in order, a prefix of what was accepted; the rest is in
      the buffer; and a sender is told that its message was taken exactly when it was. */
  lemma NothingLost(run: seq<State>, i: nat)
    requires IsRun(run) && i < |run|
    ensures run[i].faults == 0
    ensures run[i].accepted == run[i].received + run[i].buffer && |run[i].buffer| <= run[i].capacity
    ensures forall t: nat :: t in run[i].callers && run[i].callers[t].Sent? ==> Message(t) in run[i].accepted
    ensures forall t: nat :: t in run[i].callers && run[i].callers[t].Refused? ==> Message(t) !in run[i].accepted
  {
    RunInv(run, i);
  }

  /** Once the channel is closed nothing is accepted any more. */
  lemma {:induction false} NothingAfterClose(run: seq<State>, i: nat, j: nat)
    requires IsRun(run) && i <= j < |run| && run[i].channelClosed
    ensures run[j].channelClosed && run[j].accepted == run[i].accepted
    decreases j
  {
    if i < j {
      NothingAfterClose(run, i, j - 1);
      RunInv(run, j - 1);
      assert StepsAt(run, j - 1);
      ClosedStep(run[j - 1], run[j]);
    }
  }

  lemma ClosedStep(s: State, s': State)
    requires Step(s, s') && s.channelClosed
    ensures s'.channelClosed && s'.accepted == s.accepted
  {
  }

  // ---------- what is never stuck ----------

  /** A caller that waits for the mutex can have it as soon as nobody holds it. */
  lemma WaitersGoOn(run: seq<State>, i: nat, t: nat)
    requires IsRun(run) && i < |run| && t in run[i].callers && (run[i].callers[t].SendWaits? || run[i].callers[t].CloseWaits?)
    ensures (exists s' :: CallerStep(run[i], s', t)) <==> forall u :: u in run[i].callers ==> !Holds(run[i].callers[u])
  {
    RunInv(run, i);
    var s := run[i];
    if !s.locked {
      var next := if s.callers[t].SendWaits? then SendHolds else CloseHolds;
      assert CallerStep(s, Move(s, t, next).(locked := true), t);
    }
  }

  /** A sender that holds the mutex offers its message exactly if the queue is not closed;
      what it offers can be taken as long as there is room, and is then the last message
      accepted; and once it was told, it gives the mutex back. */
  lemma SendersGoOn(run: seq<State>, i: nat, t: nat, s': State)
    requires IsRun(run) && i < |run| && t in run[i].callers && CallerStep(run[i], s', t)
    ensures var s := run[i];
            && (s.callers[t].SendHolds? ==> (s'.callers[t].SendOffers? <==> !s.closed))
            && (s.callers[t].SendOffers? ==> s'.callers[t] == SendUnlocks(s'.accepted == s.accepted + [Message(t)]))
            && (s.callers[t].SendUnlocks? || s.callers[t].CloseUnlocks? ==> !s'.locked)
    ensures var s := run[i];
            s.callers[t].SendOffers? && |s.buffer| < s.capacity ==>
              exists taken :: CallerStep(s, taken, t) && taken.accepted == s.accepted + [Message(t)] && taken.buffer == s.buffer + [Message(t)]
  {
    RunInv(run, i);
    var s := run[i];
    if s.callers[t].SendOffers? {
      assert !s.channelClosed;
      assert s.accepted + [Message(t)] != s.accepted;
      if |s.buffer| < s.capacity {
        assert CallerStep(s, Move(Put(s, t), t, SendUnlocks(true)), t);
      }
    }
  }

  /** When a close has returned the channel is closed, so that the write loop ends once it has
      received what is left in the buffer. */
  lemma CloseCloses(run: seq<State>, i: nat, t: nat)
    requires IsRun(run) && i < |run| && t in run[i].callers && run[i].callers[t].Closed?
    ensures run[i].channelClosed
    ensures run[i].buffer != [] ==> exists s' :: Receives(run[i], s') && s'.received == run[i].received + [run[i].buffer[0]]
  {
    RunInv(run, i);
    var s := run[i];
    if s.buffer != [] {
      assert Receives(s, s.(buffer := s.buffer[1..], received := s.received + [s.buffer[0]]));
    }
  }
}
