/** What every run of the emergency protocol keeps. */
module EmergencyTheorems {
  import opened Emergency

  // ----- the invariant

  predicate HolderPc(pc: Pc) {
    pc in {MarkInit, RaiseStop, SendUsr1, SendReady, AwaitReady, ClearStop, Capture, PostClear, Unlock}
  }

  predicate Only(q: seq<WorkerMsg>, m: WorkerMsg) {
    |q| == 1 && q[0] == m
  }

  /** The holder `x` has signalled, and its READY, if sent, is still in the queue for `r`. */
  predicate ReadyUnread(s: State, r: Role) {
    var x := W(s, Other(r));
    && x.holds
    && (x.pc in {Top, CheckInit, SendReady}
        || (x.pc == AwaitReady && Only(s.queue, WorkerMsg(r, ReadyToResume))))
  }

  /** Where a worker may stand, given what it holds and has marked. */
  ghost predicate Standing(c: Config, now: int, w: Worker) {
    && (HolderPc(w.pc) ==> w.holds)
    && (w.holds ==> HolderPc(w.pc) || w.pc == Top || w.pc == CheckInit)
    && (w.initiator <==> (w.holds && w.pc != MarkInit) || w.pc == Retire)
    && (w.initiator && w.holds ==> 0 < w.start <= now && w.acquired <= w.start)
    && (w.holds ==> w.acquired <= now)
    && (w.pc in {SendReady, AwaitReady, ClearStop, Capture, PostClear, Unlock} ==> Elapsed(c, now, w.start))
    && (w.pc in {ClearStop, Capture, PostClear, Unlock} ==> w.answered)
    && (w.holds && w.pc !in {AwaitReady, ClearStop, Capture, PostClear, Unlock} ==> !w.answered)
    && (w.books.captured > 0 ==> w.pc == PostClear)
  }

  /** A SIGUSR1 is on its way or flagged only while the worker is sure to acknowledge before it
      could try the lock; never for the holder. */
  ghost predicate Signals(s: State, r: Role) {
    var w := W(s, r);
    && (w.holds ==> !w.pending && !w.flag)
    && (w.pending ==> ReadyUnread(s, r))
    && (w.flag ==> ReadyUnread(s, r) || w.pc in {AckAnswer, AckClear, Top})
  }

  ghost predicate WorkerOk(c: Config, s: State, r: Role) {
    Standing(c, s.now, W(s, r)) && Signals(s, r)
  }

  /** The handshake seen from a worker waiting for the answer: its READY is in the queue, or
      with the other worker, or answered. */
  ghost predicate Handshake(s: State, r: Role) {
    var w, x := W(s, r), W(s, Other(r));
    if w.pc == AwaitReady then
      || (Only(s.queue, WorkerMsg(Other(r), ReadyToResume)) && x.pc != AckAnswer && !w.answered)
      || (|s.queue| == 0 && x.pc == AckAnswer && !w.answered)
      || (Only(s.queue, WorkerMsg(r, IAmReady)) && x.pc != AckAnswer && w.answered)
    else
      x.pc != AckAnswer
  }

  function Held(w: Worker): int {
    if w.holds then 1 else 0
  }

  ghost predicate Protocol(c: Config, s: State) {
    && s.now > 0
    && s.lock + Held(s.lower) + Held(s.upper) == 1 && s.lock >= 0
    && WorkerOk(c, s, Lower) && WorkerOk(c, s, Upper)
    && Handshake(s, Lower) && Handshake(s, Upper)
    && (s.lower.pc != AwaitReady && s.upper.pc != AwaitReady ==> |s.queue| == 0)
    && !s.unexpected
  }

  lemma InitProtocol(c: Config)
    requires c.startMs > 0
    ensures Protocol(c, Init(c))
  {
  }

  /** The protocol invariant, worker by worker. */
  lemma BothRoles(c: Config, s: State, r: Role)
    requires WorkerOk(c, s, r) && WorkerOk(c, s, Other(r)) && Handshake(s, r) && Handshake(s, Other(r))
    requires s.now > 0 && !s.unexpected && s.lock >= 0 && s.lock + Held(W(s, r)) + Held(W(s, Other(r))) == 1
    requires W(s, r).pc != AwaitReady && W(s, Other(r)).pc != AwaitReady ==> |s.queue| == 0
    ensures Protocol(c, s)
  {
  }

  /** A move of one worker alone that keeps what the other one relies on. */
  predicate MovesAlone(w: Worker, w': Worker) {
    && w.pc !in {AwaitReady, AckAnswer} && w'.pc !in {AwaitReady, AckAnswer}
    && w'.holds == w.holds
    && (w.holds && w.pc in {Top, CheckInit, SendReady} ==> w'.pc in {Top, CheckInit, SendReady})
  }

  lemma MovingAloneKeepsOther(c: Config, s: State, r: Role, w: Worker)
    requires Protocol(c, s) && MovesAlone(W(s, r), w)
    ensures WorkerOk(c, Put(s, r, w), Other(r))
    ensures Handshake(Put(s, r, w), r) && Handshake(Put(s, r, w), Other(r))
  {
  }

  lemma MovingAlone(c: Config, s: State, r: Role, w: Worker)
    requires Protocol(c, s) && MovesAlone(W(s, r), w) && WorkerOk(c, Put(s, r, w), r)
    ensures Protocol(c, Put(s, r, w))
  {
    MovingAloneKeepsOther(c, s, r, w);
    BothRoles(c, Put(s, r, w), r);
  }

  lemma HeadMovesAlone(c: Config, s: State, r: Role)
    requires WorkerOk(c, s, r) && W(s, r).pc in {Top, CheckInit, ReadStop}
    ensures MovesAlone(W(s, r), Head(c, r, W(s, r), s.now, s.stop))
    ensures Standing(c, s.now, Head(c, r, W(s, r), s.now, s.stop))
  {
  }

  lemma HeadKeepsSignals(c: Config, s: State, r: Role, w: Worker)
    requires WorkerOk(c, s, r) && W(s, r).pc in {Top, CheckInit, ReadStop}
    requires w == Head(c, r, W(s, r), s.now, s.stop)
    ensures Signals(Put(s, r, w), r)
  {
  }

  lemma LoopingStep(c: Config, s: State, r: Role)
    requires Protocol(c, s) && W(s, r).pc in {Top, CheckInit, ReadStop}
    ensures Protocol(c, LoopHead(c, s, r))
  {
    HeadMovesAlone(c, s, r);
    HeadKeepsSignals(c, s, r, Head(c, r, W(s, r), s.now, s.stop));
    MovingAlone(c, s, r, Head(c, r, W(s, r), s.now, s.stop));
  }

  lemma LockingStep(c: Config, s: State, r: Role)
    requires Protocol(c, s) && Enabled(c, s, Go(r)) && W(s, r).pc in {TryLock}
    ensures Protocol(c, Trigger(s, r))
  {
    var w := W(s, r);
    if s.lock > 0 {
      AcquiringStep(c, s, r);
    } else {
      MovingAlone(c, s, r, w.(pc := AckEnter));
    }
  }

  lemma AcquiringStep(c: Config, s: State, r: Role)
    requires Protocol(c, s) && W(s, r).pc == TryLock && s.lock > 0
    ensures Protocol(c, Put(s.(lock := s.lock - 1), r,
                            W(s, r).(pc := MarkInit, holds := true, answered := false, acquired := s.now)))
  {
  }

  lemma MarkingStep(c: Config, s: State, r: Role)
    requires Protocol(c, s) && Enabled(c, s, Go(r)) && W(s, r).pc in {MarkInit, RaiseStop}
    ensures Protocol(c, Trigger(s, r))
  {
  }

  lemma SignallingStep(c: Config, s: State, r: Role)
    requires Protocol(c, s) && Enabled(c, s, Go(r)) && W(s, r).pc in {SendUsr1}
    ensures Protocol(c, Trigger(s, r))
  {
  }

  lemma AskingReadySignals(c: Config, s: State, r: Role)
    requires Protocol(c, s) && W(s, r).pc == SendReady
    ensures var s' := Put(Send(s, r, ReadyToResume), r, W(s, r).(pc := AwaitReady));
            Signals(s', r) && Signals(s', Other(r))
  {
    assert |s.queue| == 0;
  }

  lemma AskingReadyStanding(c: Config, s: State, r: Role)
    requires Protocol(c, s) && W(s, r).pc == SendReady
    ensures var s' := Put(Send(s, r, ReadyToResume), r, W(s, r).(pc := AwaitReady));
            Standing(c, s.now, W(s', r)) && Standing(c, s.now, W(s', Other(r)))
  {
  }

  lemma AskingReadyHandshake(c: Config, s: State, r: Role)
    requires Protocol(c, s) && W(s, r).pc == SendReady
    ensures var s' := Put(Send(s, r, ReadyToResume), r, W(s, r).(pc := AwaitReady));
            Handshake(s', r) && Handshake(s', Other(r))
  {
    assert |s.queue| == 0;
  }

  lemma AskingReadyStep(c: Config, s: State, r: Role)
    requires Protocol(c, s) && Enabled(c, s, Go(r)) && W(s, r).pc == SendReady
    ensures Protocol(c, Resume(s, r))
  {
    AskingReadySignals(c, s, r);
    AskingReadyStanding(c, s, r);
    AskingReadyHandshake(c, s, r);
  }

  lemma HearingAnswerStep(c: Config, s: State, r: Role)
    requires Protocol(c, s) && Enabled(c, s, Go(r)) && W(s, r).pc in {AwaitReady}
    ensures Protocol(c, Resume(s, r))
  {
  }

  lemma ClearingStep(c: Config, s: State, r: Role)
    requires Protocol(c, s) && Enabled(c, s, Go(r)) && W(s, r).pc in {ClearStop, Capture, PostClear}
    ensures Protocol(c, Resume(s, r))
  {
  }

  lemma UnlockingStep(c: Config, s: State, r: Role)
    requires Protocol(c, s) && Enabled(c, s, Go(r)) && W(s, r).pc in {Unlock, Retire}
    ensures Protocol(c, Resume(s, r))
  {
  }

  lemma AcknowledgingStep(c: Config, s: State, r: Role)
    requires Protocol(c, s) && W(s, r).pc in {AckEnter, AckRaise}
    ensures Protocol(c, Acknowledge(s, r))
  {
    var w := W(s, r);
    if w.pc == AckEnter {
      MovingAlone(c, s, r, w.(pc := AckRaise, initiator := false));
    } else {
      MovingAlone(c, s.(stop := true), r, w.(pc := AckWait));
    }
  }

  lemma ResumingWorkers(c: Config, s: State, r: Role)
    requires Protocol(c, s) && W(s, r).pc == AckClear
    ensures var s' := Goto(s.(stop := false), r, Top); WorkerOk(c, s', r) && WorkerOk(c, s', Other(r))
  {
  }

  lemma ResumingHandshake(c: Config, s: State, r: Role)
    requires Protocol(c, s) && W(s, r).pc == AckClear
    ensures var s' := Goto(s.(stop := false), r, Top); Handshake(s', r) && Handshake(s', Other(r))
  {
  }

  lemma ResumingProtocol(c: Config, s: State, r: Role)
    requires Protocol(c, s) && W(s, r).pc == AckClear
    ensures Protocol(c, Goto(s.(stop := false), r, Top))
  {
    ResumingWorkers(c, s, r);
    ResumingHandshake(c, s, r);
    BothRoles(c, Goto(s.(stop := false), r, Top), r);
  }

  lemma ResumingStep(c: Config, s: State, r: Role)
    requires Protocol(c, s) && Enabled(c, s, Go(r)) && W(s, r).pc == AckClear
    ensures Protocol(c, Acknowledge(s, r))
  {
    ResumingProtocol(c, s, r);
  }

  lemma HearingReadyStep(c: Config, s: State, r: Role)
    requires Protocol(c, s) && Enabled(c, s, Go(r)) && W(s, r).pc in {AckWait}
    ensures Protocol(c, Acknowledge(s, r))
  {
  }

  lemma AnsweringStep(c: Config, s: State, r: Role)
    requires Protocol(c, s) && Enabled(c, s, Go(r)) && W(s, r).pc in {AckAnswer}
    ensures Protocol(c, Acknowledge(s, r))
  {
  }

  lemma TriggerKeepsProtocol(c: Config, s: State, r: Role)
    requires Protocol(c, s) && Enabled(c, s, Go(r)) && InTrigger(W(s, r).pc)
    ensures Protocol(c, Trigger(s, r))
  {
    match W(s, r).pc
    case TryLock => LockingStep(c, s, r);
    case SendUsr1 => SignallingStep(c, s, r);
    case _ => MarkingStep(c, s, r);
  }

  lemma AcknowledgeKeepsProtocol(c: Config, s: State, r: Role)
    requires Protocol(c, s) && Enabled(c, s, Go(r)) && InAcknowledge(W(s, r).pc)
    ensures Protocol(c, Acknowledge(s, r))
  {
    match W(s, r).pc
    case AckWait => HearingReadyStep(c, s, r);
    case AckAnswer => AnsweringStep(c, s, r);
    case AckClear => ResumingStep(c, s, r);
    case _ => AcknowledgingStep(c, s, r);
  }

  lemma ResumeKeepsProtocol(c: Config, s: State, r: Role)
    requires Protocol(c, s) && Enabled(c, s, Go(r))
    requires !InHead(W(s, r).pc) && !InTrigger(W(s, r).pc) && !InAcknowledge(W(s, r).pc)
    ensures Protocol(c, Resume(s, r))
  {
    match W(s, r).pc
    case SendReady => AskingReadyStep(c, s, r);
    case AwaitReady => HearingAnswerStep(c, s, r);
    case Unlock => UnlockingStep(c, s, r);
    case Retire => UnlockingStep(c, s, r);
    case _ => ClearingStep(c, s, r);
  }

  lemma OperateKeepsProtocol(c: Config, s: State, r: Role)
    requires Protocol(c, s) && Enabled(c, s, Go(r))
    ensures Protocol(c, Operate(c, s, r))
  {
    var pc := W(s, r).pc;
    if InHead(pc) {
      LoopingStep(c, s, r);
    } else if InTrigger(pc) {
      TriggerKeepsProtocol(c, s, r);
    } else if InAcknowledge(pc) {
      AcknowledgeKeepsProtocol(c, s, r);
    } else {
      ResumeKeepsProtocol(c, s, r);
    }
  }

  lemma SignalStep(c: Config, s: State, r: Role)
    requires Protocol(c, s) && W(s, r).pending
    ensures Protocol(c, Apply(c, s, Deliver(r)))
  {
  }

  lemma RestartStep(c: Config, s: State, r: Role)
    requires Protocol(c, s) && Enabled(c, s, Restart(r))
    ensures Protocol(c, Apply(c, s, Restart(r)))
  {
    MovingAlone(c, s, r, W(s, r).(pc := Top));
  }

  lemma LoggingKeepsProtocol(c: Config, s: State, t: State)
    requires Protocol(c, s) && t == s.(log := t.log)
    ensures Protocol(c, t)
  {
  }

  lemma DangerStep(c: Config, s: State, r: Role)
    requires Protocol(c, s) && Enabled(c, s, Danger(r))
    ensures Protocol(c, Apply(c, s, Danger(r)))
  {
    var t := s.(log := Apply(c, s, Danger(r)).log);
    LoggingKeepsProtocol(c, s, t);
    MovingAlone(c, t, r, W(s, r).(pc := TryLock, books := W(s, r).books.(lastDanger := s.now)));
  }

  lemma OutsideStep(c: Config, s: State, step: Step)
    requires Protocol(c, s) && Enabled(c, s, step) && (step.Tick? || step.Register? || step.Pass?)
    ensures Protocol(c, Apply(c, s, step))
  {
  }

  lemma StepKeepsProtocol(c: Config, s: State, step: Step)
    requires Protocol(c, s) && Enabled(c, s, step)
    ensures Protocol(c, Apply(c, s, step))
  {
    match step
    case Go(r) => OperateKeepsProtocol(c, s, r);
    case Deliver(r) => SignalStep(c, s, r);
    case Restart(r) => RestartStep(c, s, r);
    case Danger(r) => DangerStep(c, s, r);
    case _ => OutsideStep(c, s, step);
  }

  lemma StepTaken(c: Config, tr: seq<State>, n: nat) returns (step: Step)
    requires Run(c, tr) && n < |tr| - 1
    ensures Enabled(c, tr[n], step) && tr[n + 1] == Apply(c, tr[n], step)
  {
    assert StepsAt(c, tr, n);
    step :| Enabled(c, tr[n], step) && tr[n + 1] == Apply(c, tr[n], step);
  }

  lemma {:induction false} RunProtocol(c: Config, tr: seq<State>, n: nat)
    requires c.startMs > 0 && Run(c, tr) && n < |tr|
    ensures Protocol(c, tr[n])
  {
    if n == 0 {
      InitProtocol(c);
    } else {
      RunProtocol(c, tr, n - 1);
      NextProtocol(c, tr, n);
    }
  }

  lemma NextProtocol(c: Config, tr: seq<State>, n: nat)
    requires Run(c, tr) && 0 < n < |tr| && Protocol(c, tr[n - 1])
    ensures Protocol(c, tr[n])
  {
    var step := StepTaken(c, tr, n - 1);
    StepKeepsProtocol(c, tr[n - 1], step);
  }

  // ----- handshake and initiator

  /** Over all interleavings and signal timings: the worker queue never holds more than one
      message, no worker ever receives a message of the wrong type, and a worker about to
      release the lock finds the queue empty and was answered in this tenure. */
  lemma HandshakeSafety(c: Config, tr: seq<State>, n: nat, r: Role)
    requires c.startMs > 0 && Run(c, tr) && n < |tr|
    ensures |tr[n].queue| <= 1 && !tr[n].unexpected
    ensures W(tr[n], r).pc == Unlock ==> tr[n].queue == [] && W(tr[n], r).answered
    ensures W(tr[n], r).pc == AwaitReady && tr[n].queue != [] ==>
              tr[n].queue[0].kind == if tr[n].queue[0].dest == r then IAmReady else ReadyToResume
  {
    RunProtocol(c, tr, n);
  }

  /** The lock and its holders always add up to one; the holder has no SIGUSR1 pending or
      flagged and is never in the acknowledging code. */
  lemma SingleInitiator(c: Config, tr: seq<State>, n: nat, r: Role)
    requires c.startMs > 0 && Run(c, tr) && n < |tr|
    ensures tr[n].lock + Held(tr[n].lower) + Held(tr[n].upper) == 1 && tr[n].lock >= 0
    ensures W(tr[n], r).holds ==>
              !W(tr[n], r).pending && !W(tr[n], r).flag && !InAcknowledge(W(tr[n], r).pc)
  {
    RunProtocol(c, tr, n);
  }

  lemma ExtendRun(c: Config, tr: seq<State>, step: Step) returns (tr': seq<State>)
    requires Run(c, tr) && Enabled(c, tr[|tr| - 1], step)
    ensures Run(c, tr') && tr'[|tr'| - 1] == Apply(c, tr[|tr| - 1], step)
  {
    tr' := tr + [Apply(c, tr[|tr| - 1], step)];
    forall n | 0 <= n < |tr'| - 1 ensures StepsAt(c, tr', n) {
      if n < |tr| - 1 {
        assert StepsAt(c, tr, n);
      }
    }
  }

  // ----- tourists waiting for the emergency to clear

  ghost predicate Covered(s: State, r: Role) {
    var w := W(s, r);
    && (w.pc == Capture ==> w.books.mark <= s.crowd.registered)
    && (w.pc == PostClear ==> w.books.mark <= s.crowd.registered - s.crowd.waiters)
    && (w.pc == Unlock ==> w.books.mark <= s.crowd.clear + s.crowd.passed)
  }

  ghost predicate Permits(s: State) {
    && s.crowd.clear + s.crowd.waiters + s.lower.books.captured + s.upper.books.captured == |s.crowd.waiting|
    && s.crowd.registered == s.crowd.passed + |s.crowd.waiting|
    && Covered(s, Lower) && Covered(s, Upper)
  }

  /** A worker that moves no permit, records no mark and detects no danger. */
  predicate QuietWorker(w: Worker, w': Worker) {
    w'.books == w.books && (w'.pc == w.pc || (w'.pc != Capture && w'.pc != PostClear && w'.pc != Unlock))
  }

  predicate Quiet(s: State, s': State) {
    && s'.now == s.now && s'.crowd == s.crowd && s'.log == s.log
    && QuietWorker(s.lower, s'.lower) && QuietWorker(s.upper, s'.upper)
  }

  /** A change of the lock, the flag or the worker queue only. */
  predicate SameBut(s: State, t: State) {
    && t.now == s.now && t.crowd == s.crowd && t.log == s.log && t.lower == s.lower && t.upper == s.upper
  }

  lemma PutIsQuiet(s: State, t: State, r: Role, w: Worker)
    requires SameBut(s, t) && QuietWorker(W(s, r), w)
    ensures Quiet(s, Put(t, r, w))
  {
  }

  lemma PutBothIsQuiet(s: State, t: State, r: Role, w: Worker, x: Worker)
    requires SameBut(s, t) && QuietWorker(W(s, r), w) && QuietWorker(W(s, Other(r)), x)
    ensures Quiet(s, PutBoth(t, r, w, x))
  {
  }

  lemma HeadIsQuiet(c: Config, s: State, r: Role)
    requires InHead(W(s, r).pc)
    ensures Quiet(s, LoopHead(c, s, r))
  {
    PutIsQuiet(s, s, r, Head(c, r, W(s, r), s.now, s.stop));
  }

  lemma LockingIsQuiet(s: State, r: Role)
    requires W(s, r).pc == TryLock
    ensures Quiet(s, Trigger(s, r))
  {
    var w := W(s, r);
    if s.lock > 0 {
      PutIsQuiet(s, s.(lock := s.lock - 1), r,
                 w.(pc := MarkInit, holds := true, answered := false, acquired := s.now));
    } else {
      PutIsQuiet(s, s, r, w.(pc := AckEnter));
    }
  }

  lemma SignallingIsQuiet(s: State, r: Role)
    requires W(s, r).pc == SendUsr1
    ensures Quiet(s, Trigger(s, r))
  {
    PutBothIsQuiet(s, s, r, W(s, r).(pc := Top), W(s, Other(r)).(pending := true));
  }

  lemma TriggerIsQuiet(s: State, r: Role)
    requires InTrigger(W(s, r).pc)
    ensures Quiet(s, Trigger(s, r))
  {
    var w := W(s, r);
    if w.pc == TryLock {
      LockingIsQuiet(s, r);
    } else if w.pc == SendUsr1 {
      SignallingIsQuiet(s, r);
    } else if w.pc == MarkInit {
      PutIsQuiet(s, s, r, w.(pc := RaiseStop, initiator := true, start := s.now));
    } else {
      PutIsQuiet(s, s.(stop := true), r, w.(pc := SendUsr1));
    }
  }

  lemma MessagesAreQuiet(s: State, r: Role)
    ensures SameBut(s, Take(s, r, ReadyToResume)) && SameBut(s, Send(s, r, IAmReady))
  {
  }

  lemma HearingIsQuiet(s: State, r: Role)
    requires W(s, r).pc == AckWait
    ensures Quiet(s, Acknowledge(s, r))
  {
    var w := W(s, r);
    MessagesAreQuiet(s, r);
    PutIsQuiet(s, Take(s, r, ReadyToResume), r,
               w.(pc := AckAnswer, flag := w.flag || w.pending, pending := false));
  }

  lemma AnsweringIsQuiet(s: State, r: Role)
    requires W(s, r).pc == AckAnswer
    ensures Quiet(s, Acknowledge(s, r))
  {
    MessagesAreQuiet(s, r);
    PutBothIsQuiet(s, Send(s, r, IAmReady), r, W(s, r).(pc := AckClear), W(s, Other(r)).(answered := true));
  }

  lemma AcknowledgeIsQuiet(s: State, r: Role)
    requires InAcknowledge(W(s, r).pc)
    ensures Quiet(s, Acknowledge(s, r))
  {
    var w := W(s, r);
    if w.pc == AckWait {
      HearingIsQuiet(s, r);
    } else if w.pc == AckAnswer {
      AnsweringIsQuiet(s, r);
    } else if w.pc == AckEnter {
      PutIsQuiet(s, s, r, w.(pc := AckRaise, initiator := false));
    } else if w.pc == AckRaise {
      PutIsQuiet(s, s.(stop := true), r, w.(pc := AckWait));
    } else {
      PutIsQuiet(s, s.(stop := false), r, w.(pc := Top));
    }
  }

  lemma QuietKeepsPermits(s: State, s': State)
    requires Quiet(s, s') && Permits(s)
    ensures Permits(s')
  {
  }

  lemma ReleasePermits(c: Config, s: State, r: Role)
    requires Protocol(c, s) && Permits(s) && (W(s, r).pc == Capture || W(s, r).pc == PostClear)
    ensures Permits(Resume(s, r))
  {
    assert !W(s, Other(r)).holds && W(s, Other(r)).books.captured == 0;
  }

  lemma ResumePermits(c: Config, s: State, r: Role)
    requires Protocol(c, s) && Permits(s)
    requires HolderPc(W(s, r).pc) || W(s, r).pc == Retire
    ensures Permits(Resume(s, r))
  {
    if W(s, r).pc == Capture || W(s, r).pc == PostClear {
      ReleasePermits(c, s, r);
    }
  }

  lemma OperatePermits(c: Config, s: State, r: Role)
    requires Protocol(c, s) && Permits(s) && Enabled(c, s, Go(r))
    ensures Permits(Operate(c, s, r))
  {
    var pc, s' := W(s, r).pc, Operate(c, s, r);
    if InHead(pc) {
      HeadIsQuiet(c, s, r);
      QuietKeepsPermits(s, s');
    } else if InTrigger(pc) {
      TriggerIsQuiet(s, r);
      QuietKeepsPermits(s, s');
    } else if InAcknowledge(pc) {
      AcknowledgeIsQuiet(s, r);
      QuietKeepsPermits(s, s');
    } else {
      ResumePermits(c, s, r);
    }
  }

  lemma TouristPermits(c: Config, s: State, step: Step)
    requires Permits(s) && Enabled(c, s, step) && (step.Register? || step.Pass?)
    ensures Permits(Apply(c, s, step))
  {
  }

  lemma WorkerPermits(s: State, t: State, r: Role, w: Worker)
    requires Permits(s) && t.crowd == s.crowd && t.lower == s.lower && t.upper == s.upper
    requires w.books.captured == W(s, r).books.captured && w.books.mark == W(s, r).books.mark
    requires w.pc == W(s, r).pc || (w.pc != Capture && w.pc != PostClear && w.pc != Unlock)
    ensures Permits(Put(t, r, w))
  {
  }

  lemma OutsidePermits(c: Config, s: State, step: Step)
    requires Permits(s) && Enabled(c, s, step) && !step.Go?
    ensures Permits(Apply(c, s, step))
  {
    match step
    case Tick(_) =>
    case Deliver(r) => WorkerPermits(s, s, r, W(Apply(c, s, step), r));
    case Restart(r) => WorkerPermits(s, s, r, W(Apply(c, s, step), r));
    case Danger(r) =>
      WorkerPermits(s, s.(log := Apply(c, s, step).log), r, W(Apply(c, s, step), r));
    case _ => TouristPermits(c, s, step);
  }

  lemma StepKeepsPermits(c: Config, s: State, step: Step)
    requires Protocol(c, s) && Permits(s) && Enabled(c, s, step)
    ensures Permits(Apply(c, s, step))
  {
    if step.Go? { OperatePermits(c, s, step.r); } else { OutsidePermits(c, s, step); }
  }

  lemma InitPermits(c: Config)
    ensures Permits(Init(c))
  {
  }

  lemma {:induction false} RunPermits(c: Config, tr: seq<State>, n: nat)
    requires c.startMs > 0 && Run(c, tr) && n < |tr|
    ensures Permits(tr[n])
  {
    if n == 0 {
      InitPermits(c);
    } else {
      RunPermits(c, tr, n - 1);
      NextPermits(c, tr, n);
    }
  }

  lemma NextPermits(c: Config, tr: seq<State>, n: nat)
    requires c.startMs > 0 && Run(c, tr) && 0 < n < |tr| && Permits(tr[n - 1])
    ensures Permits(tr[n])
  {
    RunProtocol(c, tr, n - 1);
    var step := StepTaken(c, tr, n - 1);
    StepKeepsPermits(c, tr[n - 1], step);
  }

  /** SEM_EMERGENCY_CLEAR plus emergency_waiters plus the permits captured and not yet posted
      always equals the tourists registered and not yet passed. When a release has been posted,
      the permits issued so far, used or not, are at least the tourists registered before that
      initiator cleared emergency_stop, and only later registrations lack one. */
  lemma WaitersAreCovered(c: Config, tr: seq<State>, n: nat, r: Role)
    requires c.startMs > 0 && Run(c, tr) && n < |tr|
    ensures var s, crowd := tr[n], tr[n].crowd;
            && crowd.clear + crowd.waiters + s.lower.books.captured + s.upper.books.captured == |crowd.waiting|
            && (W(s, r).pc == Unlock ==>
                  && W(s, r).books.mark <= crowd.clear + crowd.passed
                  && |crowd.waiting| - crowd.clear == crowd.waiters <= crowd.registered - W(s, r).books.mark)
  {
    RunPermits(c, tr, n);
    RunProtocol(c, tr, n);
  }

  // ----- how long an emergency lasts

  ghost predicate Apart(c: Config, times: seq<int>) {
    forall i, j | 0 <= i < j < |times| :: Elapsed(c, times[j], times[i])
  }

  ghost predicate DangerLog(c: Config, s: State, r: Role) {
    var times, w := Dangers(s, r), W(s, r);
    && Apart(c, times)
    && (if times == [] then w.books.lastDanger == 0 else 0 < w.books.lastDanger == times[|times| - 1] <= s.now)
    && forall i | 0 <= i < |times| :: times[i] <= w.books.lastDanger
  }

  ghost predicate Timed(c: Config, s: State) {
    && DangerLog(c, s, Lower) && DangerLog(c, s, Upper)
    && forall t | t in s.log.tenures :: Elapsed(c, t.to, t.from)
  }

  lemma QuietKeepsTimed(c: Config, s: State, s': State)
    requires Quiet(s, s') && Timed(c, s)
    ensures Timed(c, s')
  {
  }

  lemma ResumeTimes(s: State, r: Role)
    ensures Resume(s, r).log ==
              if W(s, r).pc == Unlock then s.log.(tenures := s.log.tenures + [Tenure(r, W(s, r).acquired, s.now)])
              else s.log
    ensures Resume(s, r).now == s.now
    ensures W(Resume(s, r), r).books.lastDanger == W(s, r).books.lastDanger
    ensures W(Resume(s, r), Other(r)).books == W(s, Other(r)).books
  {
  }

  lemma OperateKeepsDangers(c: Config, s: State, r: Role, of: Role)
    ensures Dangers(Operate(c, s, r), of) == Dangers(s, of)
  {
    var pc := W(s, r).pc;
    if InHead(pc) {
      HeadIsQuiet(c, s, r);
    } else if InTrigger(pc) {
      TriggerIsQuiet(s, r);
    } else if InAcknowledge(pc) {
      AcknowledgeIsQuiet(s, r);
    } else {
      ResumeTimes(s, r);
    }
  }

  /** Only the detection of a danger is logged as one. */
  lemma ActDangers(c: Config, s: State, act: Step, of: Role)
    requires Enabled(c, s, act)
    ensures Dangers(Apply(c, s, act), of) ==
              Dangers(s, of) + (if act == Danger(of) then [s.now] else [])
  {
    if act.Go? { OperateKeepsDangers(c, s, act.r, of); }
  }

  lemma SameTimes(c: Config, s: State, s': State)
    requires Timed(c, s) && s'.now == s.now
    requires s'.log.lowerDangers == s.log.lowerDangers && s'.log.upperDangers == s.log.upperDangers
    requires s'.lower.books.lastDanger == s.lower.books.lastDanger
    requires s'.upper.books.lastDanger == s.upper.books.lastDanger
    requires forall t | t in s'.log.tenures :: t in s.log.tenures || Elapsed(c, t.to, t.from)
    ensures Timed(c, s')
  {
  }

  lemma ResumeKeepsTimed(c: Config, s: State, r: Role)
    requires Protocol(c, s) && Timed(c, s)
    ensures Timed(c, Resume(s, r))
  {
    var s' := Resume(s, r);
    ResumeTimes(s, r);
    if W(s, r).pc == Unlock {
      assert Elapsed(c, s.now, W(s, r).acquired);
    }
    SameTimes(c, s, s');
  }

  lemma OperateKeepsTimed(c: Config, s: State, r: Role)
    requires Protocol(c, s) && Timed(c, s) && Enabled(c, s, Go(r))
    ensures Timed(c, Operate(c, s, r))
  {
    var pc, s' := W(s, r).pc, Operate(c, s, r);
    if InHead(pc) {
      HeadIsQuiet(c, s, r);
      QuietKeepsTimed(c, s, s');
    } else if InTrigger(pc) {
      TriggerIsQuiet(s, r);
      QuietKeepsTimed(c, s, s');
    } else if InAcknowledge(pc) {
      AcknowledgeIsQuiet(s, r);
      QuietKeepsTimed(c, s, s');
    } else {
      ResumeKeepsTimed(c, s, r);
    }
  }

  lemma DetectionApart(c: Config, s: State, r: Role)
    requires s.now > 0 && DangerLog(c, s, r) && Enabled(c, s, Danger(r))
    ensures Apart(c, Dangers(s, r) + [s.now])
  {
  }

  lemma DetectionLogged(c: Config, s: State, r: Role)
    requires s.now > 0 && DangerLog(c, s, r) && DangerLog(c, s, Other(r)) && Enabled(c, s, Danger(r))
    ensures DangerLog(c, Apply(c, s, Danger(r)), r)
    ensures DangerLog(c, Apply(c, s, Danger(r)), Other(r))
  {
    DetectionApart(c, s, r);
  }

  lemma DetectionKeepsTimed(c: Config, s: State, r: Role)
    requires Protocol(c, s) && Timed(c, s) && Enabled(c, s, Danger(r))
    ensures Timed(c, Apply(c, s, Danger(r)))
  {
    DetectionLogged(c, s, r);
  }

  lemma LaterKeepsTimed(c: Config, s: State, t: int)
    requires Timed(c, s) && s.now <= t
    ensures Timed(c, s.(now := t))
  {
  }

  lemma IdleKeepsTimed(c: Config, s: State, step: Step)
    requires Timed(c, s) && Enabled(c, s, step)
    requires step.Deliver? || step.Restart? || step.Register? || step.Pass?
    ensures Timed(c, Apply(c, s, step))
  {
    SameTimes(c, s, Apply(c, s, step));
  }

  lemma StepKeepsTimed(c: Config, s: State, step: Step)
    requires Protocol(c, s) && Timed(c, s) && Enabled(c, s, step)
    ensures Timed(c, Apply(c, s, step))
  {
    match step
    case Go(r) => OperateKeepsTimed(c, s, r);
    case Danger(r) => DetectionKeepsTimed(c, s, r);
    case Tick(t) => LaterKeepsTimed(c, s, t);
    case _ => IdleKeepsTimed(c, s, step);
  }

  lemma {:induction false} RunTimed(c: Config, tr: seq<State>, n: nat)
    requires c.startMs > 0 && Run(c, tr) && n < |tr|
    ensures Timed(c, tr[n])
  {
    if n > 0 {
      RunTimed(c, tr, n - 1);
      NextTimed(c, tr, n);
    }
  }

  lemma NextTimed(c: Config, tr: seq<State>, n: nat)
    requires c.startMs > 0 && Run(c, tr) && 0 < n < |tr| && Timed(c, tr[n - 1])
    ensures Timed(c, tr[n])
  {
    RunProtocol(c, tr, n - 1);
    var step := StepTaken(c, tr, n - 1);
    StepKeepsTimed(c, tr[n - 1], step);
  }

  /** Every tenure of the lock lasts at least the danger duration, and so do the intervals
      between the dangers detected by one worker, on the published clock. */
  lemma EmergencyLength(c: Config, tr: seq<State>, n: nat, r: Role)
    requires c.startMs > 0 && Run(c, tr) && n < |tr|
    ensures forall t | t in tr[n].log.tenures :: t.to - t.from >= c.duration * 60000
    ensures forall i, j | 0 <= i < j < |Dangers(tr[n], r)| ::
              Dangers(tr[n], r)[j] - Dangers(tr[n], r)[i] >= c.duration * 60000
  {
    RunTimed(c, tr, n);
    forall t | t in tr[n].log.tenures ensures t.to - t.from >= c.duration * 60000 {
      assert Elapsed(c, t.to, t.from);
    }
  }

  /** A worker can detect a danger again, and the initiator at its check sets about ending the emergency,
      exactly from the moment on at which the duration has passed. */
  lemma EmergencyEndsOnTime(c: Config, tr: seq<State>, n: nat, r: Role)
    requires c.startMs > 0 && Run(c, tr) && n < |tr|
    ensures W(tr[n], r).pc == Work ==>
              var times := Dangers(tr[n], r);
              (Enabled(c, tr[n], Danger(r)) <==> times == [] || tr[n].now - times[|times| - 1] >= c.duration * 60000)
    ensures W(tr[n], r).pc == CheckInit && W(tr[n], r).holds ==>
              && W(tr[n], r).acquired <= W(tr[n], r).start <= tr[n].now
              && (W(Apply(c, tr[n], Go(r)), r).pc == SendReady
                  <==> tr[n].now - W(tr[n], r).start >= c.duration * 60000)
  {
    RunTimed(c, tr, n);
    RunProtocol(c, tr, n);
    assert DangerLog(c, tr[n], r) && WorkerOk(c, tr[n], r);
  }

  /** A worker in the protocol is held up only where it waits for the other one: by a missing READY
      where it acknowledges, and by a missing answer where it has asked. */
  lemma WaitsOnlyForTheOther(c: Config, tr: seq<State>, n: nat, r: Role)
    requires c.startMs > 0 && Run(c, tr) && n < |tr| && W(tr[n], r).pc != Work
    ensures Enabled(c, tr[n], Go(r)) <==>
              && (W(tr[n], r).pc == AckWait ==> tr[n].queue == [WorkerMsg(r, ReadyToResume)])
              && (W(tr[n], r).pc == AwaitReady ==> tr[n].queue == [WorkerMsg(r, IAmReady)])
  {
    RunProtocol(c, tr, n);
    if W(tr[n], r).pc == AckWait || W(tr[n], r).pc == AwaitReady {
      assert tr[n].queue != [] ==> tr[n].queue == [tr[n].queue[0]];
    }
  }
}
