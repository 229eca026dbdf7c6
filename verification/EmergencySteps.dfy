/** What one operation of a worker leaves alone: the other worker, the clock, the waiting tourists. */
module EmergencySteps {
  import opened Emergency

  /** The worker keeps or gives up the lock, or acquires it now. */
  predicate KeepsTenure(s: State, w: Worker, w': Worker) {
    w'.holds ==> (w.holds && w'.acquired == w.acquired)
                 || (w.pc == TryLock && s.lock > 0 && w'.acquired == s.now)
  }

  /** A signal on its way is not lost, and a flag set is lowered only to acknowledge. */
  predicate KeepsSignal(w: Worker, w': Worker) {
    && (w.pending ==> w'.pending || w'.flag)
    && (w.flag ==> (w'.flag && (w.pc == Top ==> w'.pc == Top)) || (w.pc == Top && w'.pc == AckEnter))
  }

  predicate Untouched(w: Worker, w': Worker) {
    && w'.pc == w.pc && w'.holds == w.holds && w'.acquired == w.acquired
    && w'.flag == w.flag && (w.pending ==> w'.pending)
  }

  /** What a worker's own operation keeps of it. */
  predicate Kept(s: State, w: Worker, w': Worker) {
    KeepsTenure(s, w, w') && KeepsSignal(w, w')
  }

  /** An operation of worker `r` seen from outside. */
  predicate Contained(s: State, s': State, r: Role) {
    && s'.now == s.now && s'.crowd.waiting == s.crowd.waiting
    && if r == Lower then Kept(s, s.lower, s'.lower) && Untouched(s.upper, s'.upper)
       else Kept(s, s.upper, s'.upper) && Untouched(s.lower, s'.lower)
  }

  lemma PutContained(s: State, t: State, r: Role, w: Worker)
    requires t.now == s.now && t.crowd.waiting == s.crowd.waiting && t.lower == s.lower && t.upper == s.upper
    requires Kept(s, W(s, r), w)
    ensures Contained(s, Put(t, r, w), r)
  {
  }

  lemma HeadContained(c: Config, s: State, r: Role)
    requires InHead(W(s, r).pc)
    ensures Contained(s, LoopHead(c, s, r), r)
  {
    PutContained(s, s, r, Head(c, r, W(s, r), s.now, s.stop));
  }

  lemma PutBothContained(s: State, t: State, r: Role, w: Worker, x: Worker)
    requires t.now == s.now && t.crowd.waiting == s.crowd.waiting
    requires Kept(s, W(s, r), w)
    requires Untouched(W(s, Other(r)), x)
    ensures Contained(s, PutBoth(t, r, w, x), r)
  {
  }

  lemma LockingContained(s: State, r: Role)
    requires W(s, r).pc == TryLock
    ensures Contained(s, Trigger(s, r), r)
  {
    var w := W(s, r);
    if s.lock > 0 {
      PutContained(s, s.(lock := s.lock - 1), r,
                   w.(pc := MarkInit, holds := true, answered := false, acquired := s.now));
    } else {
      PutContained(s, s, r, w.(pc := AckEnter));
    }
  }

  lemma SignallingContained(s: State, r: Role)
    requires W(s, r).pc == SendUsr1
    ensures Contained(s, Trigger(s, r), r)
  {
    var w, x := W(s, r).(pc := Top), W(s, Other(r)).(pending := true);
    assert Trigger(s, r) == PutBoth(s, r, w, x);
    PutBothContained(s, s, r, w, x);
  }

  lemma TriggerContained(s: State, r: Role)
    requires InTrigger(W(s, r).pc)
    ensures Contained(s, Trigger(s, r), r)
  {
    var w := W(s, r);
    if w.pc == TryLock {
      LockingContained(s, r);
    } else if w.pc == SendUsr1 {
      SignallingContained(s, r);
    } else if w.pc == MarkInit {
      PutContained(s, s, r, w.(pc := RaiseStop, initiator := true, start := s.now));
    } else {
      PutContained(s, s.(stop := true), r, w.(pc := SendUsr1));
    }
  }

  lemma HandshakeContained(s: State, r: Role)
    requires W(s, r).pc in {SendReady, AwaitReady, ClearStop}
    ensures Contained(s, Resume(s, r), r)
  {
    var w := W(s, r);
    match w.pc
    case SendReady =>
      PutContained(s, Send(s, r, ReadyToResume), r, w.(pc := AwaitReady));
    case AwaitReady =>
      PutContained(s, Take(s, r, IAmReady), r, w.(pc := ClearStop));
    case ClearStop =>
      PutContained(s, s.(stop := false), r,
                   w.(pc := Capture, books := w.books.(mark := s.crowd.registered)));
  }

  lemma ReleaseContained(s: State, r: Role)
    requires W(s, r).pc in {Capture, PostClear, Unlock, Retire}
    ensures Contained(s, Resume(s, r), r)
  {
    var w := W(s, r);
    match w.pc
    case Capture =>
      PutContained(s, s.(crowd := s.crowd.(waiters := 0)), r,
                   w.(pc := PostClear, books := w.books.(captured := s.crowd.waiters)));
    case PostClear =>
      PutContained(s, s.(crowd := s.crowd.(clear := s.crowd.clear + w.books.captured)), r,
                   w.(pc := Unlock, books := w.books.(captured := 0)));
    case Unlock =>
      var ended := s.log.tenures + [Tenure(r, w.acquired, s.now)];
      PutContained(s, s.(lock := s.lock + 1, log := s.log.(tenures := ended)), r,
                   w.(pc := Retire, holds := false));
    case Retire => PutContained(s, s, r, w.(pc := Top, initiator := false, start := 0));
  }

  predicate InResume(pc: Pc) {
    pc in {SendReady, AwaitReady, ClearStop, Capture, PostClear, Unlock, Retire}
  }

  lemma ResumeContained(s: State, r: Role)
    requires InResume(W(s, r).pc)
    ensures Contained(s, Resume(s, r), r)
  {
    if W(s, r).pc in {SendReady, AwaitReady, ClearStop} {
      HandshakeContained(s, r);
    } else {
      ReleaseContained(s, r);
    }
  }

  lemma HearingContained(s: State, r: Role)
    requires W(s, r).pc == AckWait
    ensures Contained(s, Acknowledge(s, r), r)
  {
    var w := W(s, r);
    PutContained(s, Take(s, r, ReadyToResume), r,
                 w.(pc := AckAnswer, flag := w.flag || w.pending, pending := false));
  }

  lemma AnsweringContained(s: State, r: Role)
    requires W(s, r).pc == AckAnswer
    ensures Contained(s, Acknowledge(s, r), r)
  {
    PutBothContained(s, Send(s, r, IAmReady), r,
                     W(s, r).(pc := AckClear),
                     W(s, Other(r)).(answered := true));
  }

  lemma AcknowledgeContained(s: State, r: Role)
    requires InAcknowledge(W(s, r).pc)
    ensures Contained(s, Acknowledge(s, r), r)
  {
    var w := W(s, r);
    if w.pc == AckWait {
      HearingContained(s, r);
    } else if w.pc == AckAnswer {
      AnsweringContained(s, r);
    } else if w.pc == AckEnter {
      PutContained(s, s, r, w.(pc := AckRaise, initiator := false));
    } else if w.pc == AckRaise {
      PutContained(s, s.(stop := true), r, w.(pc := AckWait));
    } else {
      PutContained(s, s.(stop := false), r, w.(pc := Top));
    }
  }

  lemma OperateContained(c: Config, s: State, r: Role)
    requires W(s, r).pc != Work
    ensures Contained(s, Operate(c, s, r), r)
  {
    var pc := W(s, r).pc;
    if InHead(pc) {
      HeadContained(c, s, r);
    } else if InTrigger(pc) {
      TriggerContained(s, r);
    } else if InAcknowledge(pc) {
      AcknowledgeContained(s, r);
    } else {
      ResumeContained(s, r);
    }
  }

  lemma StepContained(c: Config, s: State, step: Step)
    requires Enabled(c, s, step) && (step.Deliver? || step.Restart? || step.Danger? || step.Go?)
    ensures Contained(s, Apply(c, s, step), step.r)
  {
    match step
    case Go(r) => OperateContained(c, s, r);
    case Danger(r) =>
      var w := W(s, r).(pc := TryLock, books := W(s, r).books.(lastDanger := s.now));
      PutContained(s, s.(log := Apply(c, s, step).log), r, w);
    case Deliver(r) => PutContained(s, s, r, W(s, r).(pending := false, flag := true));
    case Restart(r) => PutContained(s, s, r, W(s, r).(pc := Top));
    case _ =>
  }
}
