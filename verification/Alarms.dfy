/**
 From a danger or a SIGUSR1 to the next service: what a worker has done by then, in which order,
 whatever else happens in between.
 */
module Alarms {
  import opened Emergency
  import opened EmergencySteps
  import EmergencyTheorems

  // ----- what a worker can be seen to do

  datatype Deed =
    | TakesLock | RaisesStop | SendsSignal | AsksReady | HearsAnswer | ClearsStop | CountsWaiters
    | FreesWaiters | ReturnsLock
    | HearsReady | Answers

  predicate Leaves(s: State, s': State, r: Role, pc: Pc) {
    W(s, r).pc == pc && W(s', r).pc != pc
  }

  /** Between two states worker `r` does something to what it shares with others. */
  predicate Does(s: State, s': State, r: Role, d: Deed) {
    match d
    case TakesLock => Leaves(s, s', r, TryLock) && s.lock == 1 && s'.lock == 0 && W(s', r).holds
    case RaisesStop => (Leaves(s, s', r, RaiseStop) || Leaves(s, s', r, AckRaise)) && s'.stop
    case SendsSignal => Leaves(s, s', r, SendUsr1) && W(s', Other(r)).pending
    case AsksReady =>
      Leaves(s, s', r, SendReady) && s.queue == [] && s'.queue == [WorkerMsg(Other(r), ReadyToResume)]
    case HearsAnswer => Leaves(s, s', r, AwaitReady) && s.queue == [WorkerMsg(r, IAmReady)] && s'.queue == []
    case ClearsStop => (Leaves(s, s', r, ClearStop) || Leaves(s, s', r, AckClear)) && !s'.stop
    case CountsWaiters =>
      Leaves(s, s', r, Capture) && s'.crowd.waiters == 0 && W(s', r).books.captured == s.crowd.waiters
    case FreesWaiters =>
      Leaves(s, s', r, PostClear) && s'.crowd.clear == s.crowd.clear + W(s, r).books.captured
    case ReturnsLock => Leaves(s, s', r, Unlock) && s.lock == 0 && s'.lock == 1 && !W(s', r).holds
    case HearsReady => Leaves(s, s', r, AckWait) && s.queue == [WorkerMsg(r, ReadyToResume)] && s'.queue == []
    case Answers => Leaves(s, s', r, AckAnswer) && s.queue == [] && s'.queue == [WorkerMsg(Other(r), IAmReady)]
  }

  /** Between two moments worker `r` does all of this, in this order. */
  ghost predicate InOrder(es: seq<State>, n: nat, m: nat, r: Role, deeds: seq<Deed>)
    requires m < |es|
    decreases |deeds|
  {
    deeds == [] ||
    exists k :: n <= k < m && Does(es[k], es[k + 1], r, deeds[|deeds| - 1])
                && InOrder(es, n, k, r, deeds[..|deeds| - 1])
  }

  /** The whole of an emergency, for the worker that starts it. */
  const AS_INITIATOR :=
    [TakesLock, RaisesStop, SendsSignal, AsksReady, HearsAnswer, ClearsStop, CountsWaiters, FreesWaiters, ReturnsLock]

  /** And for the one that joins it. */
  const AS_RECEIVER := [RaisesStop, HearsReady, Answers, ClearsStop]

  ghost predicate TakesPart(es: seq<State>, n: nat, m: nat, r: Role)
    requires m < |es|
  {
    InOrder(es, n, m, r, AS_INITIATOR) || InOrder(es, n, m, r, AS_RECEIVER)
  }

  // ----- stretches of runs

  ghost predicate MovesAt(c: Config, es: seq<State>, n: nat)
    requires n < |es| - 1
  {
    es[n + 1] == es[n] || Next(c, es[n], es[n + 1])
  }

  ghost predicate SafeAt(c: Config, es: seq<State>, n: nat)
    requires n < |es|
  {
    EmergencyTheorems.Protocol(c, es[n])
  }

  /** Steps of the protocol, with other things happening in between. */
  ghost predicate Story(c: Config, es: seq<State>) {
    && (forall n | 0 <= n < |es| :: SafeAt(c, es, n))
    && (forall n | 0 <= n < |es| - 1 :: MovesAt(c, es, n))
  }

  lemma RunIsStory(c: Config, tr: seq<State>)
    requires c.startMs > 0 && Run(c, tr)
    ensures Story(c, tr)
  {
    forall n | 0 <= n < |tr| ensures SafeAt(c, tr, n) {
      EmergencyTheorems.RunProtocol(c, tr, n);
    }
    forall n | 0 <= n < |tr| - 1 ensures MovesAt(c, tr, n) {
      assert StepsAt(c, tr, n);
    }
  }

  // ----- how far a worker has come

  /** Deeds done so far by a worker that started an emergency. */
  function Started(w: Worker): nat {
    match w.pc
    case MarkInit => 1
    case RaiseStop => 1
    case SendUsr1 => 2
    case AwaitReady => 4
    case ClearStop => 5
    case Capture => 6
    case PostClear => 7
    case Unlock => 8
    case _ => 3
  }

  function Joined(w: Worker): nat {
    match w.pc
    case AckWait => 1
    case AckAnswer => 2
    case AckClear => 3
    case _ => 0
  }

  ghost predicate Initiating(es: seq<State>, n: nat, m: nat, r: Role)
    requires m < |es|
  {
    W(es[m], r).holds && InOrder(es, n, m, r, AS_INITIATOR[..Started(W(es[m], r))])
  }

  ghost predicate Receiving(es: seq<State>, n: nat, m: nat, r: Role)
    requires m < |es|
  {
    InAcknowledge(W(es[m], r).pc) && InOrder(es, n, m, r, AS_RECEIVER[..Joined(W(es[m], r))])
  }

  ghost predicate OnCourse(es: seq<State>, n: nat, m: nat, r: Role)
    requires m < |es|
  {
    var w := W(es[m], r);
    || TakesPart(es, n, m, r)
    || w.pc == TryLock || Initiating(es, n, m, r) || Receiving(es, n, m, r)
  }

  lemma StillInOrder(es: seq<State>, n: nat, m: nat, m': nat, r: Role, deeds: seq<Deed>)
    requires m <= m' < |es| && InOrder(es, n, m, r, deeds)
    ensures InOrder(es, n, m', r, deeds)
  {
  }

  lemma StillTakesPart(es: seq<State>, n: nat, m: nat, m': nat, r: Role)
    requires m <= m' < |es| && TakesPart(es, n, m, r)
    ensures TakesPart(es, n, m', r)
  {
    if InOrder(es, n, m, r, AS_INITIATOR) {
      StillInOrder(es, n, m, m', r, AS_INITIATOR);
    } else {
      StillInOrder(es, n, m, m', r, AS_RECEIVER);
    }
  }

  /** One more deed. */
  lemma OneMore(es: seq<State>, n: nat, m: nat, r: Role, deeds: seq<Deed>, k: nat)
    requires n <= m < |es| - 1 && k < |deeds| && InOrder(es, n, m, r, deeds[..k])
    requires Does(es[m], es[m + 1], r, deeds[k])
    ensures InOrder(es, n, m + 1, r, deeds[..k + 1])
  {
    var more := deeds[..k + 1];
    assert more[..|more| - 1] == deeds[..k] && more[|more| - 1] == deeds[k];
  }

  lemma AllOfThem<T>(s: seq<T>)
    ensures s[..|s|] == s
  {
  }

  // ----- one step

  /** A step that is not an operation of a worker, nor takes it away from its queue. */
  predicate Elsewhere(step: Step, r: Role) {
    step != Go(r) && step != Restart(r) && step != Danger(r)
  }

  lemma OthersLeaveAlone(c: Config, s: State, step: Step, r: Role)
    requires Enabled(c, s, step) && Elsewhere(step, r)
    ensures var w, w' := W(s, r), W(Apply(c, s, step), r);
            && w'.pc == w.pc && w'.holds == w.holds
            && (w.flag ==> w'.flag) && (w.pending ==> w'.pending || w'.flag)
  {
    if step.Go? || step.Restart? || step.Danger? || step.Deliver? { StepContained(c, s, step); }
  }

  /** What is in the queue when a worker does something about it. */
  lemma QueueIs(c: Config, s: State, r: Role)
    requires EmergencyTheorems.Protocol(c, s) && Enabled(c, s, Go(r))
    ensures W(s, r).pc == AckWait ==> s.queue == [WorkerMsg(r, ReadyToResume)]
    ensures W(s, r).pc == AwaitReady ==> s.queue == [WorkerMsg(r, IAmReady)]
    ensures W(s, r).pc == SendReady || W(s, r).pc == AckAnswer ==> s.queue == []
  {
    if W(s, r).pc == AckWait || W(s, r).pc == AwaitReady {
      assert FirstFor(s.queue, r) < |s.queue|;
    } else if W(s, r).pc == SendReady || W(s, r).pc == AckAnswer {
      assert |s.queue| == 0;
    }
  }

  /** A worker does the next of its deeds, or does not come nearer to it. */
  predicate Advances(s: State, s': State, r: Role, deeds: seq<Deed>, done: nat, done': nat) {
    done' == done || (done < |deeds| && done' == done + 1 && Does(s, s', r, deeds[done]))
  }

  lemma TriggeringGoesOn(s: State, r: Role)
    requires W(s, r).pc in {MarkInit, RaiseStop, SendUsr1} && W(s, r).holds
    ensures var s' := Trigger(s, r);
            W(s', r).holds && Advances(s, s', r, AS_INITIATOR, Started(W(s, r)), Started(W(s', r)))
  {
  }

  lemma HandshakeGoesOn(s: State, r: Role)
    requires W(s, r).pc in {SendReady, AwaitReady, ClearStop} && W(s, r).holds
    requires W(s, r).pc == AwaitReady ==> s.queue == [WorkerMsg(r, IAmReady)]
    requires W(s, r).pc == SendReady ==> s.queue == []
    ensures var s' := Resume(s, r);
            W(s', r).holds && Advances(s, s', r, AS_INITIATOR, Started(W(s, r)), Started(W(s', r)))
  {
  }

  lemma ReleaseGoesOn(s: State, r: Role)
    requires W(s, r).pc in {Capture, PostClear, Unlock} && W(s, r).holds && s.lock == 0
    ensures var s' := Resume(s, r);
            if W(s, r).pc == Unlock then !W(s', r).holds && Does(s, s', r, ReturnsLock)
            else W(s', r).holds && Advances(s, s', r, AS_INITIATOR, Started(W(s, r)), Started(W(s', r)))
  {
    if W(s, r).pc == Capture {
      assert Resume(s, r).crowd.waiters == 0;
    } else if W(s, r).pc == PostClear {
      assert Resume(s, r).crowd.clear == s.crowd.clear + W(s, r).books.captured;
    } else {
      assert Resume(s, r).lock == 1;
    }
  }

  /** The initiator at its loop head waits there for its duration. */
  lemma HeadGoesOn(c: Config, s: State, r: Role)
    requires W(s, r).pc in {Top, CheckInit} && W(s, r).holds && W(s, r).initiator && W(s, r).start > 0
    requires !W(s, r).flag
    ensures var w' := W(LoopHead(c, s, r), r); w'.holds && w'.pc in {Top, CheckInit, SendReady}
  {
  }

  lemma HolderIs(c: Config, s: State, r: Role)
    requires EmergencyTheorems.Protocol(c, s) && W(s, r).holds
    ensures s.lock == 0 && !W(s, r).flag && !InAcknowledge(W(s, r).pc)
    ensures W(s, r).pc !in {TryLock, ReadStop, Work, Retire}
    ensures W(s, r).pc in {Top, CheckInit} ==> W(s, r).initiator && W(s, r).start > 0
  {
  }

  /** A worker in the emergency it started does the next thing, or waits at its loop head. */
  lemma InitiatorGoesOn(c: Config, s: State, r: Role)
    requires EmergencyTheorems.Protocol(c, s) && Enabled(c, s, Go(r)) && W(s, r).holds
    ensures var s' := Operate(c, s, r);
            if W(s', r).holds then Advances(s, s', r, AS_INITIATOR, Started(W(s, r)), Started(W(s', r)))
            else Started(W(s, r)) == 8 && Does(s, s', r, ReturnsLock)
  {
    var pc := W(s, r).pc;
    QueueIs(c, s, r);
    HolderIs(c, s, r);
    if InHead(pc) {
      HeadGoesOn(c, s, r);
    } else if InTrigger(pc) {
      TriggeringGoesOn(s, r);
    } else if pc in {SendReady, AwaitReady, ClearStop} {
      HandshakeGoesOn(s, r);
    } else {
      ReleaseGoesOn(s, r);
    }
  }

  lemma EnteringGoesOn(s: State, r: Role)
    requires W(s, r).pc in {AckEnter, AckRaise}
    ensures var s' := Acknowledge(s, r);
            && InAcknowledge(W(s', r).pc)
            && Advances(s, s', r, AS_RECEIVER, Joined(W(s, r)), Joined(W(s', r)))
  {
  }

  lemma HearingGoesOn(s: State, r: Role)
    requires W(s, r).pc == AckWait && s.queue == [WorkerMsg(r, ReadyToResume)]
    ensures var s' := Acknowledge(s, r); W(s', r).pc == AckAnswer && Does(s, s', r, HearsReady)
  {
    var w := W(s, r);
    var t := Take(s, r, ReadyToResume);
    assert t.queue == [];
    assert Acknowledge(s, r) == Put(t, r, w.(pc := AckAnswer, flag := w.flag || w.pending, pending := false));
  }

  lemma AnsweringGoesOn(s: State, r: Role)
    requires W(s, r).pc == AckAnswer && s.queue == []
    ensures var s' := Acknowledge(s, r); W(s', r).pc == AckClear && Does(s, s', r, Answers)
  {
  }

  lemma LeavingGoesOn(s: State, r: Role)
    requires W(s, r).pc == AckClear
    ensures var s' := Acknowledge(s, r); W(s', r).pc == Top && Does(s, s', r, ClearsStop)
  {
  }

  /** A worker that acknowledges does the next thing. */
  predicate GoesOnReceiving(s: State, s': State, r: Role) {
    if InAcknowledge(W(s', r).pc) then Advances(s, s', r, AS_RECEIVER, Joined(W(s, r)), Joined(W(s', r)))
    else Joined(W(s, r)) == 3 && Does(s, s', r, ClearsStop)
  }

  lemma AcknowledgingGoesOn(s: State, r: Role)
    requires InAcknowledge(W(s, r).pc)
    requires W(s, r).pc == AckWait ==> s.queue == [WorkerMsg(r, ReadyToResume)]
    requires W(s, r).pc == AckAnswer ==> s.queue == []
    ensures GoesOnReceiving(s, Acknowledge(s, r), r)
  {
    var pc := W(s, r).pc;
    if pc == AckWait {
      HearingGoesOn(s, r);
    } else if pc == AckAnswer {
      AnsweringGoesOn(s, r);
    } else if pc == AckClear {
      LeavingGoesOn(s, r);
    } else {
      EnteringGoesOn(s, r);
    }
  }

  lemma OperatesAs(c: Config, s: State, r: Role)
    ensures InTrigger(W(s, r).pc) ==> Operate(c, s, r) == Trigger(s, r)
    ensures InAcknowledge(W(s, r).pc) ==> Operate(c, s, r) == Acknowledge(s, r)
    ensures InResume(W(s, r).pc) ==> Operate(c, s, r) == Resume(s, r)
  {
  }

  lemma ReceiverGoesOn(c: Config, s: State, r: Role)
    requires EmergencyTheorems.Protocol(c, s) && Enabled(c, s, Go(r)) && InAcknowledge(W(s, r).pc)
    ensures GoesOnReceiving(s, Operate(c, s, r), r)
  {
    QueueIs(c, s, r);
    AcknowledgingGoesOn(s, r);
    OperatesAs(c, s, r);
  }

  lemma TriesLock(c: Config, s: State, r: Role)
    requires EmergencyTheorems.Protocol(c, s) && W(s, r).pc == TryLock
    ensures var s' := Operate(c, s, r);
            var w' := W(s', r);
            || (w'.holds && Started(w') == 1 && Does(s, s', r, TakesLock))
            || (InAcknowledge(w'.pc) && Joined(w') == 0)
  {
  }

  predicate Stays(w: Worker, w': Worker) {
    w'.pc == w.pc && w'.holds == w.holds
  }

  lemma StillInitiating(es: seq<State>, n: nat, m: nat, r: Role)
    requires n <= m < |es| - 1 && Initiating(es, n, m, r) && Stays(W(es[m], r), W(es[m + 1], r))
    ensures Initiating(es, n, m + 1, r)
  {
    StillInOrder(es, n, m, m + 1, r, AS_INITIATOR[..Started(W(es[m], r))]);
  }

  lemma StillReceiving(es: seq<State>, n: nat, m: nat, r: Role)
    requires n <= m < |es| - 1 && Receiving(es, n, m, r) && Stays(W(es[m], r), W(es[m + 1], r))
    ensures Receiving(es, n, m + 1, r)
  {
    StillInOrder(es, n, m, m + 1, r, AS_RECEIVER[..Joined(W(es[m], r))]);
  }

  lemma StayingOnCourse(es: seq<State>, n: nat, m: nat, r: Role)
    requires n <= m < |es| - 1 && OnCourse(es, n, m, r) && Stays(W(es[m], r), W(es[m + 1], r))
    ensures OnCourse(es, n, m + 1, r)
  {
    if TakesPart(es, n, m, r) {
      StillTakesPart(es, n, m, m + 1, r);
    } else if Initiating(es, n, m, r) {
      StillInitiating(es, n, m, r);
    } else if Receiving(es, n, m, r) {
      StillReceiving(es, n, m, r);
    }
  }

  lemma InitiatorOnCourse(c: Config, es: seq<State>, n: nat, m: nat, r: Role)
    requires n <= m < |es| - 1 && EmergencyTheorems.Protocol(c, es[m]) && Enabled(c, es[m], Go(r))
    requires es[m + 1] == Operate(c, es[m], r)
    requires Initiating(es, n, m, r)
    ensures OnCourse(es, n, m + 1, r)
  {
    var k := Started(W(es[m], r));
    InitiatorGoesOn(c, es[m], r);
    if W(es[m + 1], r).holds && Started(W(es[m + 1], r)) == k {
      StillInOrder(es, n, m, m + 1, r, AS_INITIATOR[..k]);
    } else {
      OneMore(es, n, m, r, AS_INITIATOR, k);
      AllOfThem(AS_INITIATOR);
    }
  }

  lemma ReceiverOnCourse(c: Config, es: seq<State>, n: nat, m: nat, r: Role)
    requires n <= m < |es| - 1 && EmergencyTheorems.Protocol(c, es[m]) && Enabled(c, es[m], Go(r))
    requires es[m + 1] == Operate(c, es[m], r)
    requires Receiving(es, n, m, r)
    ensures OnCourse(es, n, m + 1, r)
  {
    var k := Joined(W(es[m], r));
    ReceiverGoesOn(c, es[m], r);
    if InAcknowledge(W(es[m + 1], r).pc) && Joined(W(es[m + 1], r)) == k {
      StillInOrder(es, n, m, m + 1, r, AS_RECEIVER[..k]);
    } else {
      OneMore(es, n, m, r, AS_RECEIVER, k);
      AllOfThem(AS_RECEIVER);
    }
  }

  lemma TryingOnCourse(c: Config, es: seq<State>, n: nat, m: nat, r: Role)
    requires n <= m < |es| - 1 && EmergencyTheorems.Protocol(c, es[m])
    requires es[m + 1] == Operate(c, es[m], r) && W(es[m], r).pc == TryLock
    ensures OnCourse(es, n, m + 1, r)
  {
    TriesLock(c, es[m], r);
    if W(es[m + 1], r).holds {
      OneMore(es, n, m, r, AS_INITIATOR, 0);
    }
  }

  lemma OperatingOnCourse(c: Config, es: seq<State>, n: nat, m: nat, r: Role)
    requires n <= m < |es| - 1 && EmergencyTheorems.Protocol(c, es[m]) && Enabled(c, es[m], Go(r))
    requires es[m + 1] == Operate(c, es[m], r) && OnCourse(es, n, m, r)
    ensures OnCourse(es, n, m + 1, r)
  {
    var w := W(es[m], r);
    if TakesPart(es, n, m, r) {
      StillTakesPart(es, n, m, m + 1, r);
    } else if w.pc == TryLock {
      TryingOnCourse(c, es, n, m, r);
    } else if Initiating(es, n, m, r) {
      InitiatorOnCourse(c, es, n, m, r);
    } else {
      ReceiverOnCourse(c, es, n, m, r);
    }
  }

  /** A worker that goes back to its loop head, or detects danger, is at work. */
  lemma WorkingOnCourse(c: Config, es: seq<State>, n: nat, m: nat, r: Role, step: Step)
    requires n <= m < |es| - 1 && EmergencyTheorems.Protocol(c, es[m]) && OnCourse(es, n, m, r)
    requires Enabled(c, es[m], step) && es[m + 1] == Apply(c, es[m], step)
    requires (step.Restart? || step.Danger?) && step.r == r
    ensures OnCourse(es, n, m + 1, r)
  {
    StillTakesPart(es, n, m, m + 1, r);
  }

  lemma StepOnCourse(c: Config, es: seq<State>, n: nat, m: nat, r: Role)
    requires Story(c, es) && n <= m < |es| - 1 && OnCourse(es, n, m, r)
    ensures OnCourse(es, n, m + 1, r)
  {
    assert MovesAt(c, es, m) && SafeAt(c, es, m);
    if es[m + 1] == es[m] {
      StayingOnCourse(es, n, m, r);
    } else {
      var step :| Enabled(c, es[m], step) && es[m + 1] == Apply(c, es[m], step);
      if step == Go(r) {
        OperatingOnCourse(c, es, n, m, r);
      } else if step == Restart(r) || step == Danger(r) {
        WorkingOnCourse(c, es, n, m, r, step);
      } else {
        OthersLeaveAlone(c, es[m], step, r);
        StayingOnCourse(es, n, m, r);
      }
    }
  }

  lemma NextOnCourse(c: Config, es: seq<State>, n: nat, m: nat, r: Role)
    requires Story(c, es) && n < m < |es| && OnCourse(es, n, m - 1, r)
    ensures OnCourse(es, n, m, r)
  {
    StepOnCourse(c, es, n, m - 1, r);
  }

  lemma OnCourseAtFirst(es: seq<State>, n: nat, r: Role)
    requires n < |es| && W(es[n], r).pc in {TryLock, AckEnter}
    ensures OnCourse(es, n, n, r)
  {
    assert AS_RECEIVER[..0] == [];
  }

  lemma {:induction false} StaysOnCourse(c: Config, es: seq<State>, n: nat, m: nat, r: Role)
    requires Story(c, es) && n <= m < |es| && W(es[n], r).pc in {TryLock, AckEnter}
    ensures OnCourse(es, n, m, r)
    decreases m
  {
    if n == m {
      OnCourseAtFirst(es, n, r);
    } else {
      StaysOnCourse(c, es, n, m - 1, r);
      NextOnCourse(c, es, n, m, r);
    }
  }

  // ----- main results

  /** Between a danger it detected, or a signal it began to acknowledge, and its next service a
      worker has gone through a whole emergency, each thing in its turn. As the initiator it took
      the lock, raised emergency_stop, signalled the other worker, asked whether it is ready, heard
      that it is, cleared emergency_stop, freed those waiting and returned the lock; otherwise it
      raised emergency_stop, was asked, answered, and cleared emergency_stop. */
  lemma AlarmRunsItsCourse(c: Config, es: seq<State>, n: nat, m: nat, r: Role)
    requires Story(c, es) && n <= m < |es|
    requires W(es[n], r).pc in {TryLock, AckEnter} && W(es[m], r).pc == Work
    ensures TakesPart(es, n, m, r)
  {
    StaysOnCourse(c, es, n, m, r);
    assert SafeAt(c, es, m);
  }

  /** The worker raises emergency_stop itself between two moments. */
  ghost predicate Raised(es: seq<State>, n: nat, m: nat, r: Role)
    requires m < |es|
  {
    exists k :: n <= k < m && Does(es[k], es[k + 1], r, RaisesStop)
  }

  predicate Unraised(pc: Pc) {
    pc in {TryLock, MarkInit, RaiseStop, AckEnter, AckRaise}
  }

  lemma TriggersUnraised(s: State, r: Role)
    requires W(s, r).pc in {TryLock, MarkInit, RaiseStop}
    ensures Unraised(W(Trigger(s, r), r).pc) || Does(s, Trigger(s, r), r, RaisesStop)
  {
  }

  lemma RaisingIsNext(c: Config, s: State, r: Role)
    requires Unraised(W(s, r).pc)
    ensures Unraised(W(Operate(c, s, r), r).pc) || Does(s, Operate(c, s, r), r, RaisesStop)
  {
    if InTrigger(W(s, r).pc) {
      TriggersUnraised(s, r);
    } else {
      EnteringGoesOn(s, r);
    }
  }

  lemma RaisesBeforeAll(c: Config, s: State, s': State, r: Role)
    requires s' == s || Next(c, s, s')
    requires Unraised(W(s, r).pc)
    ensures Unraised(W(s', r).pc) || Does(s, s', r, RaisesStop)
  {
    if s' != s {
      var step :| Enabled(c, s, step) && s' == Apply(c, s, step);
      if step == Go(r) {
        RaisingIsNext(c, s, r);
      } else {
        OthersLeaveAlone(c, s, step, r);
      }
    }
  }

  /** A worker that detected danger raises emergency_stop before it does anything else, on any day. */
  lemma {:induction false} DangerRaisesStop(c: Config, es: seq<State>, n: nat, m: nat, r: Role)
    requires forall k | 0 <= k < |es| - 1 :: MovesAt(c, es, k)
    requires n <= m < |es| && W(es[n], r).pc == TryLock
    ensures Raised(es, n, m, r) || Unraised(W(es[m], r).pc)
    decreases m
  {
    if n < m {
      DangerRaisesStop(c, es, n, m - 1, r);
      assert MovesAt(c, es, m - 1);
      if Unraised(W(es[m - 1], r).pc) {
        RaisesBeforeAll(c, es[m - 1], es[m - 1 + 1], r);
      }
    }
  }

  // ----- a signal received

  /** Worker `r` begins to acknowledge at some moment between two others. */
  ghost predicate Heeded(es: seq<State>, n: nat, m: nat, r: Role)
    requires m < |es|
  {
    exists k :: n <= k <= m && W(es[k], r).pc == AckEnter
  }

  lemma SignalIsKept(c: Config, s: State, s': State, r: Role)
    requires Next(c, s, s')
    ensures KeepsSignal(W(s, r), W(s', r))
  {
    var step :| Enabled(c, s, step) && s' == Apply(c, s, step);
    if Elsewhere(step, r) {
      OthersLeaveAlone(c, s, step, r);
    } else {
      StepContained(c, s, step);
    }
  }

  lemma FlagStep(c: Config, es: seq<State>, m: nat, r: Role)
    requires Story(c, es) && m < |es| - 1 && W(es[m], r).flag
    ensures KeepsSignal(W(es[m], r), W(es[m + 1], r))
  {
    assert MovesAt(c, es, m);
    if es[m + 1] != es[m] { SignalIsKept(c, es[m], es[m + 1], r); }
  }

  lemma {:induction false} FlagStays(c: Config, es: seq<State>, n: nat, m: nat, r: Role)
    requires Story(c, es) && n <= m < |es| && W(es[n], r).flag
    ensures W(es[m], r).flag || Heeded(es, n, m, r)
    decreases m
  {
    if n < m {
      FlagStays(c, es, n, m - 1, r);
      if W(es[m - 1], r).flag { FlagStep(c, es, m - 1, r); }
    }
  }

  lemma {:induction false} FlagHoldsAtTop(c: Config, es: seq<State>, n: nat, m: nat, r: Role)
    requires Story(c, es) && n <= m < |es| && W(es[n], r).flag && W(es[n], r).pc == Top
    ensures (W(es[m], r).flag && W(es[m], r).pc == Top) || Heeded(es, n, m, r)
    decreases m
  {
    if n < m {
      FlagHoldsAtTop(c, es, n, m - 1, r);
      if W(es[m - 1], r).flag && W(es[m - 1], r).pc == Top { FlagStep(c, es, m - 1, r); }
    }
  }

  lemma {:induction false} InOrderSince(es: seq<State>, n: nat, k: nat, m: nat, r: Role, deeds: seq<Deed>)
    requires n <= k && m < |es| && InOrder(es, k, m, r, deeds)
    ensures InOrder(es, n, m, r, deeds)
    decreases |deeds|
  {
    if deeds != [] {
      var j :| k <= j < m && Does(es[j], es[j + 1], r, deeds[|deeds| - 1])
               && InOrder(es, k, j, r, deeds[..|deeds| - 1]);
      InOrderSince(es, n, k, j, r, deeds[..|deeds| - 1]);
    }
  }

  lemma TakesPartSince(es: seq<State>, n: nat, k: nat, m: nat, r: Role)
    requires n <= k && m < |es| && TakesPart(es, k, m, r)
    ensures TakesPart(es, n, m, r)
  {
    if InOrder(es, k, m, r, AS_INITIATOR) {
      InOrderSince(es, n, k, m, r, AS_INITIATOR);
    } else {
      InOrderSince(es, n, k, m, r, AS_RECEIVER);
    }
  }

  lemma HeededRunsItsCourse(c: Config, es: seq<State>, n: nat, m: nat, r: Role)
    requires Story(c, es) && n <= m < |es| && W(es[m], r).pc == Work && Heeded(es, n, m, r)
    ensures TakesPart(es, n, m, r)
  {
    var k: nat :| n <= k <= m && W(es[k], r).pc == AckEnter;
    AlarmRunsItsCourse(c, es, k, m, r);
    TakesPartSince(es, n, k, m, r);
  }

  /** A worker flagged by SIGUSR1 that comes by the head of its loop goes through a whole emergency
      before it serves again. */
  lemma SignalRunsItsCourse(c: Config, es: seq<State>, n: nat, k: nat, m: nat, r: Role)
    requires Story(c, es) && n <= k <= m < |es| && W(es[n], r).flag
    requires W(es[k], r).pc == Top && W(es[m], r).pc == Work
    ensures TakesPart(es, n, m, r)
  {
    FlagStays(c, es, n, k, r);
    if W(es[k], r).flag { FlagHoldsAtTop(c, es, k, m, r); }
    HeededRunsItsCourse(c, es, n, m, r);
  }

  /** The lower worker comes to its queue only by reading emergency_stop clear. */
  lemma LowerReadsStop(c: Config, s: State, s': State)
    requires Next(c, s, s') && s.lower.pc != Work && s'.lower.pc == Work
    ensures !s.stop
  {
    var step :| Enabled(c, s, step) && s' == Apply(c, s, step);
    if Elsewhere(step, Lower) {
      OthersLeaveAlone(c, s, step, Lower);
    } else {
      ToWorkFromHead(c, s, Lower);
    }
  }

  lemma TriggerLeadsElsewhere(s: State, r: Role)
    requires InTrigger(W(s, r).pc)
    ensures W(Trigger(s, r), r).pc in {MarkInit, AckEnter, RaiseStop, SendUsr1, Top}
  {
    match W(s, r).pc
    case TryLock =>
    case MarkInit =>
    case RaiseStop =>
    case SendUsr1 =>
  }

  lemma AcknowledgeLeadsElsewhere(s: State, r: Role)
    requires InAcknowledge(W(s, r).pc)
    ensures W(Acknowledge(s, r), r).pc in {AckRaise, AckWait, AckAnswer, AckClear, Top}
  {
    match W(s, r).pc
    case AckEnter =>
    case AckRaise =>
    case AckWait =>
    case AckAnswer =>
    case AckClear =>
  }

  lemma AskingLeadsElsewhere(s: State, r: Role)
    requires W(s, r).pc in {SendReady, AwaitReady}
    ensures W(Resume(s, r), r).pc in {AwaitReady, ClearStop}
  {
    assert W(Put(Send(s, r, ReadyToResume), r, W(s, r).(pc := AwaitReady)), r).pc == AwaitReady;
    assert W(Put(Take(s, r, IAmReady), r, W(s, r).(pc := ClearStop)), r).pc == ClearStop;
  }

  lemma ReleasingLeadsElsewhere(s: State, r: Role)
    requires W(s, r).pc in {ClearStop, Capture, PostClear, Unlock, Retire}
    ensures W(Resume(s, r), r).pc in {Capture, PostClear, Unlock, Retire, Top}
  {
  }

  lemma ResumeLeadsElsewhere(s: State, r: Role)
    requires InResume(W(s, r).pc)
    ensures W(Resume(s, r), r).pc != Work
  {
    if W(s, r).pc in {SendReady, AwaitReady} {
      AskingLeadsElsewhere(s, r);
    } else {
      ReleasingLeadsElsewhere(s, r);
    }
  }

  lemma ToWorkFromHead(c: Config, s: State, r: Role)
    requires W(s, r).pc != Work && W(Operate(c, s, r), r).pc == Work
    ensures InHead(W(s, r).pc)
  {
    OperatesAs(c, s, r);
    if InTrigger(W(s, r).pc) { TriggerLeadsElsewhere(s, r); }
    if InAcknowledge(W(s, r).pc) { AcknowledgeLeadsElsewhere(s, r); }
    if InResume(W(s, r).pc) { ResumeLeadsElsewhere(s, r); }
  }
}
