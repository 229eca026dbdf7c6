/** What holds of the whole ropeway in every run. */
module RopewayTheorems {
  import opened Constants
  import Pipeline
  import Gates
  import PipelineTheorems
  import Boarding
  import SeatTheorems
  import Progress
  import Emergency
  import opened EmergencySteps
  import EmergencyTheorems
  import Clock
  import ClockTheorems
  import opened Ropeway

  // ----- every run of the whole is a run of each part

  lemma RunUpTo(c: Config, tr: seq<State>, n: nat)
    requires ValidConfig(c) && Run(c, tr) && n < |tr|
    ensures Run(c, tr[..n + 1]) && tr[..n + 1][n] == tr[n]
  {
    var part := tr[..n + 1];
    forall m | 0 <= m < |part| - 1 ensures StepsAt(c, part, m) {
      assert StepsAt(c, tr, m);
    }
  }

  lemma StepAt(c: Config, tr: seq<State>, n: nat) returns (step: Step)
    requires ValidConfig(c) && Run(c, tr) && n < |tr| - 1
    ensures Enabled(c, tr[n], step) && tr[n + 1] == Apply(c, tr[n], step)
    ensures Pipeline.DistinctIds(tr[n].p)
  {
    assert StepsAt(c, tr, n);
    step :| Enabled(c, tr[n], step) && tr[n + 1] == Apply(c, tr[n], step);
  }

  lemma StepOfPipeline(c: Config, s: State, step: Step)
    requires ValidConfig(c) && Enabled(c, s, step)
    ensures step.Pipe? ==> Pipeline.Enabled(c.pipe, s.p, step.move)
    ensures Apply(c, s, step).p == if step.Pipe? then Pipeline.Apply(c.pipe, s.p, step.move) else s.p
  {
  }

  lemma {:induction false} PipelineOf(c: Config, tr: seq<State>) returns (part: seq<Pipeline.State>)
    requires ValidConfig(c) && Run(c, tr)
    ensures Pipeline.Run(c.pipe, part) && part[|part| - 1] == tr[|tr| - 1].p
  {
    var last := |tr| - 1;
    if last == 0 {
      part := [tr[0].p];
    } else {
      RunUpTo(c, tr, last - 1);
      part := PipelineOf(c, tr[..last]);
      var step := StepAt(c, tr, last - 1);
      StepOfPipeline(c, tr[last - 1], step);
      if step.Pipe? {
        part := ExtendPipeline(c.pipe, part, step.move);
      }
    }
  }

  lemma ExtendPipeline(c: Pipeline.Config, part: seq<Pipeline.State>, step: Pipeline.Step)
    returns (part': seq<Pipeline.State>)
    requires Pipeline.Run(c, part) && Pipeline.DistinctIds(part[|part| - 1])
    requires Pipeline.Enabled(c, part[|part| - 1], step)
    ensures Pipeline.Run(c, part') && part'[|part'| - 1] == Pipeline.Apply(c, part[|part| - 1], step)
  {
    var s' := Pipeline.Apply(c, part[|part| - 1], step);
    part' := part + [s'];
    assert Pipeline.Next(c, part[|part| - 1], s');
    forall n | 0 <= n < |part'| - 1 ensures Pipeline.StepsAt(c, part', n) {
      if n < |part| - 1 {
        assert Pipeline.StepsAt(c, part, n);
      }
    }
  }

  lemma StepOfProtocol(c: Config, s: State, step: Step)
    requires ValidConfig(c) && Enabled(c, s, step)
    ensures var part := ProtocolPart(c, s, step);
            && (part.Some? ==> Emergency.Enabled(Protocol(c), s.e, part.value))
            && Apply(c, s, step).e == if part.Some? then Emergency.Apply(Protocol(c), s.e, part.value) else s.e
  {
  }

  lemma {:induction false} ProtocolOf(c: Config, tr: seq<State>) returns (part: seq<Emergency.State>)
    requires ValidConfig(c) && Run(c, tr)
    ensures Emergency.Run(Protocol(c), part) && part[|part| - 1] == tr[|tr| - 1].e
  {
    var last := |tr| - 1;
    if last == 0 {
      part := [tr[0].e];
    } else {
      RunUpTo(c, tr, last - 1);
      part := ProtocolOf(c, tr[..last]);
      part := ExtendProtocol(c, tr, last - 1, part);
    }
  }

  lemma ExtendProtocol(c: Config, tr: seq<State>, n: nat, part: seq<Emergency.State>)
    returns (part': seq<Emergency.State>)
    requires ValidConfig(c) && Run(c, tr) && n < |tr| - 1
    requires Emergency.Run(Protocol(c), part) && part[|part| - 1] == tr[n].e
    ensures Emergency.Run(Protocol(c), part') && part'[|part'| - 1] == tr[n + 1].e
  {
    var step := StepAt(c, tr, n);
    StepOfProtocol(c, tr[n], step);
    part' := part;
    if ProtocolPart(c, tr[n], step).Some? {
      part' := EmergencyTheorems.ExtendRun(Protocol(c), part, ProtocolPart(c, tr[n], step).value);
    }
  }

  // ----- tourists waiting for the emergency to clear

  ghost function AtStopWait(p: Pipeline.State): set<nat> {
    set i | 0 <= i < |p.ts| && p.ts[i].at == Pipeline.StopWait
  }

  ghost predicate SameCrowd(s: State) {
    s.e.crowd.waiting == AtStopWait(s.p)
  }

  lemma StopWaitChanges(c: Pipeline.Config, p: Pipeline.State, step: Pipeline.Step)
    requires Pipeline.Enabled(c, p, step)
    ensures AtStopWait(Pipeline.Apply(c, p, step)) ==
              match step
              case PassClear(i) => AtStopWait(p) - {i}
              case ReadStop(i, true) =>
                if p.ts[i].at == Pipeline.StopRegister then AtStopWait(p) + {i} else AtStopWait(p)
              case _ => AtStopWait(p)
  {
  }

  lemma StepKeepsCrowd(c: Config, s: State, step: Step)
    requires ValidConfig(c) && Enabled(c, s, step) && SameCrowd(s)
    ensures SameCrowd(Apply(c, s, step))
  {
    match step
    case Pipe(ps) => StopWaitChanges(c.pipe, s.p, ps);
    case Protect(es) => StepContained(Protocol(c), s.e, es);
    case Time(_) =>
  }

  // ----- a worker in the protocol has nothing in hand, and will come to its queue afresh

  ghost predicate EmptyHands(s: State) {
    forall r: Emergency.Role :: Emergency.W(s.e, r).pc != Emergency.Work ==> Idle(s.p, r) && DeskOf(s, r) == Open
  }

  lemma HandsChange(c: Pipeline.Config, p: Pipeline.State, step: Pipeline.Step, r: Emergency.Role)
    requires Pipeline.Enabled(c, p, step) && WorkerOf(step) != Some(r)
    ensures Idle(Pipeline.Apply(c, p, step), r) == Idle(p, r)
  {
  }

  lemma DesksChange(c: Config, s: State, step: Step, r: Emergency.Role)
    requires ValidConfig(c) && Enabled(c, s, step)
    ensures DeskOf(Apply(c, s, step), r) == DeskAfter(s, step, r)
  {
  }

  lemma StepKeepsHands(c: Config, s: State, step: Step)
    requires ValidConfig(c) && Enabled(c, s, step) && EmptyHands(s)
    ensures EmptyHands(Apply(c, s, step))
  {
    var s' := Apply(c, s, step);
    forall r: Emergency.Role | Emergency.W(s'.e, r).pc != Emergency.Work
      ensures Idle(s'.p, r) && DeskOf(s', r) == Open
    {
      DesksChange(c, s, step, r);
      match step
      case Pipe(ps) => if WorkerOf(ps) != Some(r) { HandsChange(c.pipe, s.p, ps, r); }
      case Protect(es) => StepContained(Protocol(c), s.e, es);
      case Time(_) =>
    }
  }

  // ----- the protocol reads the published clock

  ghost predicate OnTime(c: Config, s: State) {
    && Clock.History(c.realStart, s.es)
    && s.e.now == Clock.After(Started(c), s.es).published
    && s.since <= |s.es|
    && forall r: Emergency.Role | Emergency.W(s.e, r).holds ::
         Emergency.W(s.e, r).acquired == Clock.After(Started(c), s.es[..s.since]).published
  }

  lemma HistoryExtends(start: real, es: seq<Clock.Event>, ev: Clock.Event)
    requires Clock.History(start, es) && Clock.LastTime(start, es) <= ev.at
    requires Clock.Stopped(es) ==> ev.Stop? || ev.Continue?
    ensures Clock.History(start, es + [ev])
  {
    var all := es + [ev];
    forall n | 0 <= n < |all|
      ensures Clock.LastTime(start, all[..n]) <= all[n].at
      ensures Clock.Stopped(all[..n]) ==> all[n].Stop? || all[n].Continue?
    {
      assert all[..n] == es[..n];
    }
    assert es[..|es|] == es;
  }

  lemma EventAdvances(c: Config, s: State, ev: Clock.Event)
    requires ValidConfig(c) && Enabled(c, s, Time(ev))
    ensures Apply(c, s, Time(ev)) ==
              s.(e := s.e.(now := Clock.After(Started(c), s.es + [ev]).published), es := s.es + [ev])
  {
  }

  lemma EventKeepsTime(c: Config, s: State, ev: Clock.Event, s': State)
    requires ValidConfig(c) && OnTime(c, s) && Clock.LastTime(c.realStart, s.es) <= ev.at
    requires Clock.Stopped(s.es) ==> ev.Stop? || ev.Continue?
    requires s' == s.(e := s.e.(now := Clock.After(Started(c), s.es + [ev]).published), es := s.es + [ev])
    ensures OnTime(c, s')
  {
    HistoryExtends(c.realStart, s.es, ev);
    assert s'.es[..s.since] == s.es[..s.since];
    forall r: Emergency.Role | Emergency.W(s'.e, r).holds
      ensures Emergency.W(s'.e, r).acquired == Clock.After(Started(c), s'.es[..s.since]).published
    {
      assert Emergency.W(s.e, r).holds;
    }
  }

  lemma ActKeepsTime(c: Config, s: State, act: Emergency.Step)
    requires ValidConfig(c) && Enabled(c, s, Protect(act)) && OnTime(c, s)
    requires EmergencyTheorems.Protocol(Protocol(c), s.e)
    ensures OnTime(c, Apply(c, s, Protect(act)))
  {
    StepContained(Protocol(c), s.e, act);
    assert s.es[..|s.es|] == s.es;
  }

  /** The emergency protocol as far as the clock is concerned. */
  predicate SameTenures(e: Emergency.State, e': Emergency.State) {
    e'.now == e.now && e'.lower == e.lower && e'.upper == e.upper
  }

  lemma PipeKeepsTenures(c: Config, s: State, ps: Pipeline.Step)
    requires ValidConfig(c) && Enabled(c, s, Pipe(ps))
    ensures var s' := Apply(c, s, Pipe(ps)); s'.es == s.es && s'.since == s.since && SameTenures(s.e, s'.e)
  {
  }

  lemma TenuresKeepTime(c: Config, s: State, s': State)
    requires ValidConfig(c) && OnTime(c, s) && s'.es == s.es && s'.since == s.since && SameTenures(s.e, s'.e)
    ensures OnTime(c, s')
  {
    forall r: Emergency.Role | Emergency.W(s'.e, r).holds
      ensures Emergency.W(s'.e, r).acquired == Clock.After(Started(c), s'.es[..s'.since]).published
    {
      assert Emergency.W(s.e, r).holds;
    }
  }

  lemma PipeKeepsTime(c: Config, s: State, ps: Pipeline.Step)
    requires ValidConfig(c) && Enabled(c, s, Pipe(ps)) && OnTime(c, s)
    ensures OnTime(c, Apply(c, s, Pipe(ps)))
  {
    PipeKeepsTenures(c, s, ps);
    TenuresKeepTime(c, s, Apply(c, s, Pipe(ps)));
  }

  lemma StepKeepsTime(c: Config, s: State, step: Step)
    requires ValidConfig(c) && Enabled(c, s, step) && OnTime(c, s)
    requires EmergencyTheorems.Protocol(Protocol(c), s.e)
    ensures OnTime(c, Apply(c, s, step))
  {
    match step
    case Pipe(ps) => PipeKeepsTime(c, s, ps);
    case Protect(act) => ActKeepsTime(c, s, act);
    case Time(ev) =>
      EventAdvances(c, s, ev);
      EventKeepsTime(c, s, ev, Apply(c, s, step));
  }

  // ----- where no emergency can happen

  /** Every party needs more of the lower station than there is: nobody can board. */
  ghost predicate NobodyFits(c: Pipeline.Config) {
    forall i | 0 <= i < |c.parties| :: c.parties[i].stationSlots > c.capacity
  }

  /** Danger detection is disabled, or never comes to its turn. */
  ghost predicate Harmless(c: Config) {
    !c.pipe.danger || NobodyFits(c.pipe)
  }

  /** Nobody has got past the door of the station. */
  ghost predicate Barred(c: Pipeline.Config, p: Pipeline.State) {
    && Gates.SameParties(c, p)
    && (forall i | 0 <= i < |p.ts| ::
          p.ts[i].at in {Pipeline.Start, Pipeline.EntryGate, Pipeline.StationDoor, Pipeline.Gone})
    && p.free.station == c.capacity && p.queue == [] && p.low.pc.Loop? && p.low.pending == []
    && p.arrivals == [] && p.up.hand.None?
  }

  lemma MoveKeepsBarred(c: Pipeline.Config, p: Pipeline.State, i: nat, to: Pipeline.Place)
    requires NobodyFits(c) && Barred(c, p) && Pipeline.Enabled(c, p, Pipeline.Move(i, to))
    ensures Barred(c, Pipeline.ApplyMove(p, i, to))
  {
    assert p.ts[i].party == c.parties[i];
    assert p.ts[i].at != Pipeline.StationDoor;
  }

  lemma StepKeepsBarred(c: Pipeline.Config, p: Pipeline.State, step: Pipeline.Step)
    requires NobodyFits(c) && Barred(c, p) && Pipeline.Enabled(c, p, step)
    ensures Barred(c, Pipeline.Apply(c, p, step)) && WorkerOf(step) == None
  {
    if step.Move? { MoveKeepsBarred(c, p, step.i, step.to); }
  }

  predicate AtPeace(w: Emergency.Worker) {
    && w.pc in {Emergency.Top, Emergency.CheckInit, Emergency.ReadStop, Emergency.Work}
    && !w.pending && !w.flag && !w.initiator && !w.holds
  }

  predicate Peaceful(e: Emergency.State) {
    !e.stop && e.lock == 1 && AtPeace(e.lower) && AtPeace(e.upper) && e.crowd.waiting == {}
  }

  lemma PutKeepsPeace(e: Emergency.State, r: Emergency.Role, w: Emergency.Worker)
    requires Peaceful(e) && AtPeace(w)
    ensures Peaceful(Emergency.Put(e, r, w))
  {
  }

  lemma ActKeepsPeace(c: Emergency.Config, e: Emergency.State, act: Emergency.Step)
    requires Emergency.Enabled(c, e, act) && Peaceful(e) && !act.Danger?
    ensures Peaceful(Emergency.Apply(c, e, act))
  {
    match act
    case Deliver(_) =>
    case Restart(r) => PutKeepsPeace(e, r, Emergency.W(e, r).(pc := Emergency.Top));
    case Go(r) => PutKeepsPeace(e, r, Emergency.W(Emergency.Operate(c, e, r), r));
    case Tick(_) =>
    case Register(_) =>
    case Pass(_) =>
  }

  /** No emergency, and none in sight. */
  ghost predicate Calm(c: Config, s: State) {
    && Peaceful(s.e)
    && (c.pipe.danger ==> Barred(c.pipe, s.p) && s.lowerDesk == Open && s.upperDesk == Open)
  }

  lemma StepKeepsPeace(c: Config, s: State, step: Step)
    requires ValidConfig(c) && Harmless(c) && Enabled(c, s, step) && Calm(c, s)
    ensures Peaceful(Apply(c, s, step).e)
  {
    var part := ProtocolPart(c, s, step);
    if part.Some? { ActKeepsPeace(Protocol(c), s.e, part.value); }
  }

  lemma StepKeepsCalm(c: Config, s: State, step: Step)
    requires ValidConfig(c) && Harmless(c) && Enabled(c, s, step) && Calm(c, s)
    ensures Calm(c, Apply(c, s, step))
  {
    StepKeepsPeace(c, s, step);
    if c.pipe.danger {
      DesksChange(c, s, step, Emergency.Lower);
      DesksChange(c, s, step, Emergency.Upper);
      if step.Pipe? { StepKeepsBarred(c.pipe, s.p, step.move); }
    }
  }

  lemma FirstCalm(c: Config, tr: seq<State>)
    requires ValidConfig(c) && Run(c, tr)
    ensures Calm(c, tr[0])
  {
  }

  lemma NextCalm(c: Config, tr: seq<State>, n: nat)
    requires ValidConfig(c) && Harmless(c) && Run(c, tr) && 0 < n < |tr| && Calm(c, tr[n - 1])
    ensures Calm(c, tr[n])
  {
    var step := StepAt(c, tr, n - 1);
    StepKeepsCalm(c, tr[n - 1], step);
  }

  lemma {:induction false} RunCalm(c: Config, tr: seq<State>, n: nat)
    requires ValidConfig(c) && Harmless(c) && Run(c, tr) && n < |tr|
    ensures Calm(c, tr[n])
  {
    if n == 0 {
      FirstCalm(c, tr);
    } else {
      RunCalm(c, tr, n - 1);
      NextCalm(c, tr, n);
    }
  }

  lemma NextCrowd(c: Config, tr: seq<State>, n: nat)
    requires ValidConfig(c) && Run(c, tr) && 0 < n < |tr| && SameCrowd(tr[n - 1])
    ensures SameCrowd(tr[n])
  {
    var step := StepAt(c, tr, n - 1);
    StepKeepsCrowd(c, tr[n - 1], step);
  }

  lemma {:induction false} RunCrowd(c: Config, tr: seq<State>, n: nat)
    requires ValidConfig(c) && Run(c, tr) && n < |tr|
    ensures SameCrowd(tr[n])
  {
    if n == 0 {
      assert AtStopWait(Init(c).p) == {};
    } else {
      RunCrowd(c, tr, n - 1);
      NextCrowd(c, tr, n);
    }
  }

  // ----- the invariant of the whole

  ghost predicate Joined(c: Config, s: State) {
    SameCrowd(s) && EmptyHands(s) && OnTime(c, s)
  }

  /** The simulated day does not start at time 0. */
  predicate PositiveStart(c: Config) {
    c.day.start > 0
  }

  lemma InvariantHolds(c: Config, tr: seq<State>, n: nat)
    requires ValidConfig(c) && PositiveStart(c) && Run(c, tr) && n < |tr|
    ensures EmergencyTheorems.Protocol(Protocol(c), tr[n].e)
  {
    RunUpTo(c, tr, n);
    var part := ProtocolOf(c, tr[..n + 1]);
    EmergencyTheorems.RunProtocol(Protocol(c), part, |part| - 1);
  }

  lemma PermitsHold(c: Config, tr: seq<State>, n: nat)
    requires ValidConfig(c) && PositiveStart(c) && Run(c, tr) && n < |tr|
    ensures EmergencyTheorems.Permits(tr[n].e)
  {
    RunUpTo(c, tr, n);
    var part := ProtocolOf(c, tr[..n + 1]);
    EmergencyTheorems.RunPermits(Protocol(c), part, |part| - 1);
  }

  lemma InitJoined(c: Config)
    requires ValidConfig(c)
    ensures Joined(c, Init(c))
  {
    assert Clock.After(Started(c), []) == Started(c);
    assert AtStopWait(Init(c).p) == {};
    assert !Emergency.W(Init(c).e, Emergency.Lower).holds && !Emergency.W(Init(c).e, Emergency.Upper).holds;
  }

  lemma StepKeepsJoined(c: Config, s: State, step: Step)
    requires ValidConfig(c) && Enabled(c, s, step) && Joined(c, s)
    requires EmergencyTheorems.Protocol(Protocol(c), s.e)
    ensures Joined(c, Apply(c, s, step))
  {
    StepKeepsCrowd(c, s, step);
    StepKeepsHands(c, s, step);
    StepKeepsTime(c, s, step);
  }

  lemma {:induction false} RunJoined(c: Config, tr: seq<State>, n: nat)
    requires ValidConfig(c) && PositiveStart(c) && Run(c, tr) && n < |tr|
    ensures Joined(c, tr[n])
  {
    if n == 0 {
      InitJoined(c);
    } else {
      RunJoined(c, tr, n - 1);
      NextJoined(c, tr, n);
    }
  }

  lemma NextJoined(c: Config, tr: seq<State>, n: nat)
    requires ValidConfig(c) && PositiveStart(c) && Run(c, tr) && 0 < n < |tr| && Joined(c, tr[n - 1])
    ensures Joined(c, tr[n])
  {
    InvariantHolds(c, tr, n - 1);
    assert StepsAt(c, tr, n - 1);
    NextKeepsJoined(c, tr[n - 1], tr[n]);
  }

  lemma NextKeepsJoined(c: Config, s: State, s': State)
    requires ValidConfig(c) && Next(c, s, s') && Joined(c, s) && EmergencyTheorems.Protocol(Protocol(c), s.e)
    ensures Joined(c, s')
  {
    var step :| Enabled(c, s, step) && s' == Apply(c, s, step);
    StepKeepsJoined(c, s, step);
  }

  // ----- main results

  /** In the whole ropeway, with every reading of emergency_stop the real one: SEM_CHAIRS plus
      the chairs under way is 36; parties are confirmed in the order of their requests, and each
      request is in exactly one place, whatever emergencies there are; no worker receives an
      unexpected message; the lock and its holders add up to one. */
  lemma WholeRopeway(c: Config, tr: seq<State>)
    requires ValidConfig(c) && PositiveStart(c) && Run(c, tr)
    ensures var p, e := tr[|tr| - 1].p, tr[|tr| - 1].e;
            && p.permits + |Pipeline.Outstanding(p)| == 36
            && Boarding.Sending(p.low) <= |p.low.pending|
            && p.confirmed + SeatTheorems.Unconfirmed(p) == p.sent
            && p.low.slots <= 4
            && |e.queue| <= 1 && !e.unexpected
            && e.lock + EmergencyTheorems.Held(e.lower) + EmergencyTheorems.Held(e.upper) == 1
  {
    PipelineIsSafe(c, tr);
    ProtocolIsSafe(c, tr);
  }

  lemma PipelineIsSafe(c: Config, tr: seq<State>)
    requires ValidConfig(c) && Run(c, tr)
    ensures var p := tr[|tr| - 1].p;
            && p.permits + |Pipeline.Outstanding(p)| == 36
            && Boarding.Sending(p.low) <= |p.low.pending|
            && p.confirmed + SeatTheorems.Unconfirmed(p) == p.sent
            && p.low.slots <= 4
  {
    var part := PipelineOf(c, tr);
    PipelineTheorems.ChairConservation(c.pipe, part, |part| - 1);
    SeatTheorems.SeatedInOrderOfSending(c.pipe, part, |part| - 1);
    SeatTheorems.SeatBound(c.pipe, part, |part| - 1);
  }

  lemma ProtocolIsSafe(c: Config, tr: seq<State>)
    requires ValidConfig(c) && PositiveStart(c) && Run(c, tr)
    ensures var e := tr[|tr| - 1].e;
            && |e.queue| <= 1 && !e.unexpected
            && e.lock + EmergencyTheorems.Held(e.lower) + EmergencyTheorems.Held(e.upper) == 1
  {
    var part := ProtocolOf(c, tr);
    EmergencyTheorems.HandshakeSafety(Protocol(c), part, |part| - 1, Emergency.Lower);
    EmergencyTheorems.SingleInitiator(Protocol(c), part, |part| - 1, Emergency.Lower);
  }

  /** The tourists standing at the wait for the emergency to clear are exactly those the permits, the
      waiter count and the captured waiters account for; one that looks a second time and finds
      emergency_stop still raised joins them. */
  lemma WaitersAreTourists(c: Config, tr: seq<State>, n: nat, i: nat)
    requires ValidConfig(c) && PositiveStart(c) && Run(c, tr) && n < |tr|
    ensures var s := tr[n];
            && s.e.crowd.waiting == AtStopWait(s.p)
            && s.e.crowd.clear + s.e.crowd.waiters + s.e.lower.books.captured + s.e.upper.books.captured
               == |AtStopWait(s.p)|
    ensures i < |tr[n].p.ts| && tr[n].p.ts[i].at == Pipeline.StopRegister && tr[n].e.stop ==>
              && Enabled(c, tr[n], Pipe(Pipeline.ReadStop(i, true)))
              && AtStopWait(Apply(c, tr[n], Pipe(Pipeline.ReadStop(i, true))).p) == AtStopWait(tr[n].p) + {i}
  {
    RunReadable(c, tr, n);
    PermitsHold(c, tr, n);
    if i < |tr[n].p.ts| && tr[n].p.ts[i].at == Pipeline.StopRegister && tr[n].e.stop {
      StopIsReadable(c, tr[n], i);
      StopWaitChanges(c.pipe, tr[n].p, Pipeline.ReadStop(i, true));
    }
  }

  /** A worker anywhere in the emergency protocol has no request or arrival in hand; so the one
      that holds the lock, or acknowledges, boards nobody and counts nobody. */
  lemma EmergencyStopsWork(c: Config, tr: seq<State>, n: nat, r: Emergency.Role, step: Pipeline.Step)
    requires ValidConfig(c) && PositiveStart(c) && Run(c, tr) && n < |tr|
    requires var w := Emergency.W(tr[n].e, r); w.holds || Emergency.InAcknowledge(w.pc)
    ensures Idle(tr[n].p, r)
    ensures Enabled(c, tr[n], Pipe(step)) ==> WorkerOf(step) != Some(r)
  {
    RunEmptyHands(c, tr, n);
    InvariantHolds(c, tr, n);
  }

  lemma RunEmptyHands(c: Config, tr: seq<State>, n: nat)
    requires ValidConfig(c) && PositiveStart(c) && Run(c, tr) && n < |tr|
    ensures EmptyHands(tr[n])
  {
    RunJoined(c, tr, n);
  }

  /** Both workers are in the emergency: one holds the lock or both acknowledge. */
  predicate Engaged(e: Emergency.State) {
    && (e.lower.holds || Emergency.InAcknowledge(e.lower.pc))
    && (e.upper.holds || Emergency.InAcknowledge(e.upper.pc))
  }

  /** What the workers keep of the pipeline. */
  predicate Standing(p: Pipeline.State, p': Pipeline.State) {
    && p'.low == p.low && p'.up == p.up && p'.chairs == p.chairs && p'.confirmed == p.confirmed
    && p'.permits == p.permits && p'.returned == p.returned
  }

  lemma TouristsLeaveStanding(c: Pipeline.Config, p: Pipeline.State, step: Pipeline.Step)
    requires Pipeline.Enabled(c, p, step) && WorkerOf(step) == None
    ensures Standing(p, Pipeline.Apply(c, p, step))
  {
  }

  lemma EngagedStep(c: Config, tr: seq<State>, n: nat)
    requires ValidConfig(c) && PositiveStart(c) && Run(c, tr) && n < |tr| - 1 && Engaged(tr[n].e)
    ensures Standing(tr[n].p, tr[n + 1].p)
  {
    var step := StepAt(c, tr, n);
    if step.Pipe? {
      EmergencyStopsWork(c, tr, n, Emergency.Lower, step.move);
      EmergencyStopsWork(c, tr, n, Emergency.Upper, step.move);
      TouristsLeaveStanding(c.pipe, tr[n].p, step.move);
    }
  }

  /** As long as both workers are in an emergency the chairlift stands still: no request is served,
      no chair leaves and nobody is counted at the top, whatever the tourists do. */
  lemma {:induction false} ChairliftStandsStill(c: Config, tr: seq<State>, n: nat, m: nat)
    requires ValidConfig(c) && PositiveStart(c) && Run(c, tr) && n <= m < |tr|
    requires forall k | n <= k <= m :: Engaged(tr[k].e)
    ensures Standing(tr[n].p, tr[m].p)
    decreases m
  {
    if n < m {
      ChairliftStandsStill(c, tr, n, m - 1);
      EngagedStep(c, tr, m - 1);
    }
  }

  /** Where danger detection is disabled, or nobody can board, there is never an emergency, and
      nobody ever waits for one to clear. */
  lemma NoDangerNoStop(c: Config, tr: seq<State>, n: nat)
    requires ValidConfig(c) && Harmless(c) && Run(c, tr) && n < |tr|
    ensures !tr[n].e.stop && AtStopWait(tr[n].p) == {} && tr[n].e.lock == 1
    ensures !tr[n].e.lower.holds && !tr[n].e.upper.holds
  {
    RunCalm(c, tr, n);
    RunCrowd(c, tr, n);
  }

  lemma RunOnTime(c: Config, tr: seq<State>, n: nat)
    requires ValidConfig(c) && PositiveStart(c) && Run(c, tr) && n < |tr|
    ensures OnTime(c, tr[n])
  {
    RunJoined(c, tr, n);
  }

  lemma RunReadable(c: Config, tr: seq<State>, n: nat)
    requires ValidConfig(c) && PositiveStart(c) && Run(c, tr) && n < |tr|
    ensures SameCrowd(tr[n]) && EmptyHands(tr[n]) && (!c.pipe.danger ==> !tr[n].e.stop)
  {
    RunJoined(c, tr, n);
    if !c.pipe.danger { RunCalm(c, tr, n); }
  }

  lemma StopIsReadable(c: Config, s: State, i: nat)
    requires ValidConfig(c) && SameCrowd(s) && (!c.pipe.danger ==> !s.e.stop) && i < |s.p.ts|
    requires s.p.ts[i].at == Pipeline.StopCheck || s.p.ts[i].at == Pipeline.StopRegister
    ensures Enabled(c, s, Pipe(Pipeline.ReadStop(i, s.e.stop)))
    ensures Apply(c, s, Pipe(Pipeline.ReadStop(i, s.e.stop))).p.ts[i].at == Pipeline.Request <==> !s.e.stop
  {
    assert i !in AtStopWait(s.p);
  }

  lemma ClockIsFree(c: Config, s: State, ev: Clock.Event)
    requires ValidConfig(c) && OnTime(c, s) && Clock.History(c.realStart, s.es + [ev])
    ensures Enabled(c, s, Time(ev))
  {
    assert (s.es + [ev])[..|s.es|] == s.es && (s.es + [ev])[|s.es|] == ev;
    ClockTheorems.PublishedGrows(c.day, c.realStart, s.es + [ev], |s.es|);
  }

  /** The agreement of the parts restrains nobody: a tourist can always read emergency_stop, and goes on
      to ask for a seat just when it is clear; a request in hand can always be decided on, and is to
      be put back when it is raised; every event of the clock can happen. */
  lemma ReadingNeverBlocks(c: Config, tr: seq<State>, n: nat, i: nat, ev: Clock.Event)
    requires ValidConfig(c) && PositiveStart(c) && Run(c, tr) && n < |tr|
    ensures i < |tr[n].p.ts| && (tr[n].p.ts[i].at == Pipeline.StopCheck || tr[n].p.ts[i].at == Pipeline.StopRegister)
            ==> Enabled(c, tr[n], Pipe(Pipeline.ReadStop(i, tr[n].e.stop)))
                && (Apply(c, tr[n], Pipe(Pipeline.ReadStop(i, tr[n].e.stop))).p.ts[i].at == Pipeline.Request
                    <==> !tr[n].e.stop)
    ensures tr[n].p.low.pc.InHand? ==>
              && Enabled(c, tr[n], Pipe(Pipeline.Decide(tr[n].e.stop)))
              && (tr[n].e.stop ==> Apply(c, tr[n], Pipe(Pipeline.Decide(true))).p.low
                                   == tr[n].p.low.(pc := Pipeline.PutBack(tr[n].p.low.pc.req)))
    ensures Clock.History(c.realStart, tr[n].es + [ev]) ==> Enabled(c, tr[n], Time(ev))
  {
    RunReadable(c, tr, n);
    RunOnTime(c, tr, n);
    if i < |tr[n].p.ts| && (tr[n].p.ts[i].at == Pipeline.StopCheck || tr[n].p.ts[i].at == Pipeline.StopRegister) {
      StopIsReadable(c, tr[n], i);
    }
    if Clock.History(c.realStart, tr[n].es + [ev]) { ClockIsFree(c, tr[n], ev); }
  }

  // ----- progress without danger detection

  ghost predicate Path(c: Config, path: seq<State>)
    requires ValidConfig(c)
  {
    |path| > 0 && forall n | 0 <= n < |path| - 1 :: Next(c, path[n], path[n + 1])
  }

  lemma ExtendPath(c: Config, path: seq<State>, step: Step) returns (path': seq<State>)
    requires ValidConfig(c) && Path(c, path) && Enabled(c, path[|path| - 1], step)
    ensures Path(c, path') && path'[0] == path[0] && |path'| == |path| + 1
    ensures path'[|path'| - 1] == Apply(c, path[|path| - 1], step)
  {
    var s' := Apply(c, path[|path| - 1], step);
    path' := path + [s'];
    assert Next(c, path[|path| - 1], s');
    forall n | 0 <= n < |path'| - 1 ensures Next(c, path'[n], path'[n + 1]) {
      if n < |path| - 1 { assert Next(c, path[n], path[n + 1]); }
    }
  }

  /** Operations of the protocol between here and the worker's queue, without an emergency. */
  function Distance(pc: Emergency.Pc): nat {
    match pc
    case Top => 3
    case CheckInit => 2
    case ReadStop => 1
    case _ => 0
  }

  lemma Approaches(c: Config, s: State, r: Emergency.Role)
    requires ValidConfig(c) && Peaceful(s.e) && Emergency.W(s.e, r).pc != Emergency.Work
    ensures var go := Protect(Emergency.Go(r));
            && Enabled(c, s, go)
            && var s' := Apply(c, s, go);
               && s'.p == s.p && Peaceful(s'.e) && DeskOf(s', r) == DeskOf(s, r)
               && Distance(Emergency.W(s'.e, r).pc) < Distance(Emergency.W(s.e, r).pc)
  {
  }

  lemma {:induction false} ToWork(c: Config, path: seq<State>, r: Emergency.Role) returns (path': seq<State>)
    requires ValidConfig(c) && Path(c, path) && Peaceful(path[|path| - 1].e)
    ensures Path(c, path') && path'[0] == path[0]
    ensures path'[|path'| - 1].p == path[|path| - 1].p && Peaceful(path'[|path'| - 1].e)
    ensures Emergency.W(path'[|path'| - 1].e, r).pc == Emergency.Work
    ensures DeskOf(path'[|path'| - 1], r) == DeskOf(path[|path| - 1], r)
    ensures |path'| <= |path| + Distance(Emergency.W(path[|path| - 1].e, r).pc)
    decreases Distance(Emergency.W(path[|path| - 1].e, r).pc)
  {
    path' := path;
    if Emergency.W(path[|path| - 1].e, r).pc != Emergency.Work {
      Approaches(c, path[|path| - 1], r);
      path' := ExtendPath(c, path, Protect(Emergency.Go(r)));
      path' := ToWork(c, path', r);
    }
  }

  /** A worker that has served somebody goes round its loop before it takes anything else. */
  lemma GoesRound(c: Config, s: State, r: Emergency.Role) returns (path: seq<State>)
    requires ValidConfig(c) && Peaceful(s.e) && Idle(s.p, r)
    requires Emergency.W(s.e, r).pc == Emergency.Work || DeskOf(s, r) == Open
    ensures Path(c, path) && path[0] == s && |path| <= 5
    ensures path[|path| - 1].p == s.p && Peaceful(path[|path| - 1].e)
    ensures Emergency.W(path[|path| - 1].e, r).pc == Emergency.Work && DeskOf(path[|path| - 1], r) == Open
  {
    path := [s];
    if DeskOf(s, r) != Open {
      RestartIs(c, s, r);
      path := ExtendPath(c, path, Protect(Emergency.Restart(r)));
    }
    path := ToWork(c, path, r);
  }

  lemma RestartIs(c: Config, s: State, r: Emergency.Role)
    requires ValidConfig(c) && Peaceful(s.e) && Idle(s.p, r) && Emergency.W(s.e, r).pc == Emergency.Work
    requires DeskOf(s, r) != Open
    ensures var restart := Protect(Emergency.Restart(r));
            && Enabled(c, s, restart)
            && var s' := Apply(c, s, restart);
               s'.p == s.p && Peaceful(s'.e) && DeskOf(s', r) == Open && Emergency.W(s'.e, r).pc == Emergency.Top
  {
    PutKeepsPeace(s.e, r, Emergency.W(s.e, r).(pc := Emergency.Top));
  }

  /** With danger detection disabled, and no party larger than the station, the whole ropeway can
      always do something for a tourist present: within five operations the tourists and the
      queues of the pipeline are in another state. */
  lemma RopewayLive(c: Config, tr: seq<State>) returns (path: seq<State>)
    requires ValidConfig(c) && PositiveStart(c) && !c.pipe.danger && Progress.EveryoneFits(c.pipe)
    requires Run(c, tr) && Progress.SomeonePresent(tr[|tr| - 1].p)
    ensures Path(c, path) && path[0] == tr[|tr| - 1] && |path| <= 6
    ensures path[|path| - 1].p != tr[|tr| - 1].p
  {
    RunPeaceful(c, tr, |tr| - 1);
    RunEmptyHands(c, tr, |tr| - 1);
    NoDangerNoStop(c, tr, |tr| - 1);
    var step := PipelineMoves(c, tr);
    path := MovesSoon(c, tr[|tr| - 1], step);
  }

  lemma RunPeaceful(c: Config, tr: seq<State>, n: nat)
    requires ValidConfig(c) && Harmless(c) && Run(c, tr) && n < |tr|
    ensures Peaceful(tr[n].e)
  {
    RunCalm(c, tr, n);
  }

  lemma TakingIsIdle(c: Pipeline.Config, p: Pipeline.State, step: Pipeline.Step)
    requires Pipeline.Enabled(c, p, step) && Takes(step)
    ensures WorkerOf(step).Some? && Idle(p, WorkerOf(step).value)
  {
  }

  lemma MovesSoon(c: Config, s: State, step: Pipeline.Step) returns (path: seq<State>)
    requires ValidConfig(c) && !c.pipe.danger && Peaceful(s.e) && AtStopWait(s.p) == {} && EmptyHands(s)
    requires Progress.Changes(c.pipe, s.p, step)
    ensures Path(c, path) && path[0] == s && |path| <= 6 && path[|path| - 1].p != s.p
  {
    path := [s];
    if Takes(step) {
      TakingIsIdle(c.pipe, s.p, step);
      path := GoesRound(c, s, WorkerOf(step).value);
    } else if WorkerOf(step).Some? {
      path := ToWork(c, path, WorkerOf(step).value);
    }
    MoveIsAgreed(c, path[|path| - 1], step);
    path := ExtendPath(c, path, Pipe(step));
  }

  lemma MoveIsAgreed(c: Config, s: State, step: Pipeline.Step)
    requires ValidConfig(c) && !c.pipe.danger && Peaceful(s.e) && AtStopWait(s.p) == {}
    requires Pipeline.Enabled(c.pipe, s.p, step)
    requires WorkerOf(step).Some? ==> Emergency.W(s.e, WorkerOf(step).value).pc == Emergency.Work
    requires Takes(step) ==> WorkerOf(step).Some? && DeskOf(s, WorkerOf(step).value) == Open
    ensures Enabled(c, s, Pipe(step))
  {
    forall i | 0 <= i < |s.p.ts| ensures s.p.ts[i].at != Pipeline.StopWait {
      assert i !in AtStopWait(s.p);
    }
  }

  lemma PipelineMoves(c: Config, tr: seq<State>) returns (step: Pipeline.Step)
    requires ValidConfig(c) && !c.pipe.danger && Progress.EveryoneFits(c.pipe)
    requires Run(c, tr) && Progress.SomeonePresent(tr[|tr| - 1].p)
    ensures Progress.Changes(c.pipe, tr[|tr| - 1].p, step)
  {
    var part := PipelineOf(c, tr);
    Progress.DeadlockFreeIffEveryoneFits(c.pipe);
    assert Progress.Live(c.pipe, part[|part| - 1]);
    step :| Progress.Changes(c.pipe, tr[|tr| - 1].p, step);
  }
}
