/**
 What the emergency protocol does not promise, in runs of the whole ropeway. A worker that has
 seen emergency_stop raised and acknowledged it keeps the SIGUSR1 that is still on its way, and
 acknowledges a second time when the emergency is over; and an acknowledgement that clears
 emergency_stop late clears that of the next emergency.
 */
module EmergencyLimits {
  import Pipeline
  import LostPermit
  import opened Emergency
  import Clock
  import Ropeway
  import RopewayTheorems
  import Tenures
  import opened Outings
  import opened ShortTenures

  // ----- emergency_stop does not stay raised

  /** An initiator that waits for the duration of its emergency. */
  predicate Waits(w: Worker) {
    w.holds && w.initiator && w.pc in {SendUsr1, Top, CheckInit, SendReady}
  }

  ghost predicate StopLasts(c: Ropeway.Config)
    requires Ropeway.ValidConfig(c)
  {
    forall tr: seq<Ropeway.State> | Ropeway.Run(c, tr) ::
      Waits(tr[|tr| - 1].e.lower) || Waits(tr[|tr| - 1].e.upper) ==> tr[|tr| - 1].e.stop
  }

  /** The scene of the second emergency, before the late acknowledgement of the first. */
  function Second(c: Ropeway.Config, lower: Worker, lock: int, stop: bool): State
    requires Ropeway.ValidConfig(c)
  {
    Scene(lower, Fresh().(pc := AckClear), lock, stop, [], Dawn(c) + Tenures.DurationMs(c), TwoDangers(c))
  }

  lemma StartsAgain(c: Ropeway.Config, i: nat) returns (tr: seq<Ropeway.State>)
    requires Ropeway.ValidConfig(c) && RopewayTheorems.PositiveStart(c) && CanBoard(c, i) && c.pipe.danger
    ensures Early(c, tr)
    ensures tr[|tr| - 1].e == Second(c, Holder(SendUsr1, false, Dawn(c) + Tenures.DurationMs(c)), 0, true)
  {
    var now := Dawn(c) + Tenures.DurationMs(c);
    tr := DetectsAgain(c, i);
    tr := Acquire(c, tr, Lower, Second(c, Holder(MarkInit, false, now).(initiator := false, start := 0), 0, false));
    tr := Act(c, tr, Go(Lower), Second(c, Holder(RaiseStop, false, now), 0, false));
    tr := Act(c, tr, Go(Lower), Second(c, Holder(SendUsr1, false, now), 0, true));
  }

  /** For any party that can board there is a run in which an initiator waits for the duration of its
      emergency with emergency_stop cleared, by a late acknowledgement of the emergency before. */
  lemma StopDoesNotLast(c: Ropeway.Config, i: nat) returns (tr: seq<Ropeway.State>)
    requires Ropeway.ValidConfig(c) && RopewayTheorems.PositiveStart(c) && CanBoard(c, i) && c.pipe.danger
    ensures Ropeway.Run(c, tr) && Waits(tr[|tr| - 1].e.lower) && !tr[|tr| - 1].e.stop
  {
    var waiting := Holder(Top, false, Dawn(c) + Tenures.DurationMs(c));
    tr := StartsAgain(c, i);
    var e := Second(c, waiting, 0, true).(upper := Fresh().(pc := AckClear, pending := true));
    tr := Act(c, tr, Go(Lower), e);
    tr := Act(c, tr, Go(Upper), e.(stop := false, upper := Fresh().(pending := true)));
  }

  /** emergency_stop stays raised while an initiator waits for the duration of its emergency, in
      every run, if and only if no emergency can happen: danger detection is disabled, or nobody
      can board. */
  lemma StopLastsIff(c: Ropeway.Config)
    requires Ropeway.ValidConfig(c) && RopewayTheorems.PositiveStart(c)
    ensures StopLasts(c) <==> RopewayTheorems.Harmless(c)
  {
    if RopewayTheorems.Harmless(c) {
      forall tr: seq<Ropeway.State> | Ropeway.Run(c, tr)
        ensures !Waits(tr[|tr| - 1].e.lower) && !Waits(tr[|tr| - 1].e.upper)
      {
        RopewayTheorems.NoDangerNoStop(c, tr, |tr| - 1);
      }
    } else {
      var i := Boarder(c);
      var tr := StopDoesNotLast(c, i);
    }
  }

  // ----- an emergency acknowledged before its signal comes

  /** One party has ridden up, and been counted by the upper worker. */
  function Counted(c: Ropeway.Config, i: nat): Pipeline.State
    requires CanBoard(c, i)
  {
    LostPermit.Back(Pipeline.Init(c.pipe), i)
  }

  lemma OneArrives(c: Ropeway.Config, i: nat) returns (tr: seq<Ropeway.State>)
    requires Ropeway.ValidConfig(c) && CanBoard(c, i)
    ensures Early(c, tr)
    ensures tr[|tr| - 1] ==
              Ropeway.State(Ridden(c, i),
                            Scene(Fresh().(pc := Work), Fresh().(pc := Work), 1, false, [], Dawn(c), Log([], [], [])),
                            [], 0, [], [], Ropeway.Busy, Ropeway.Open)
  {
    var none := Log([], [], []);
    tr := OneBoards(c, i);
    tr := LowerRestarts(c, tr, Scene(Fresh(), Fresh(), 1, false, [], Dawn(c), none));
    tr := Act(c, tr, Go(Lower), Scene(Fresh().(pc := CheckInit), Fresh(), 1, false, [], Dawn(c), none));
    tr := Act(c, tr, Go(Lower), Scene(Fresh().(pc := ReadStop), Fresh(), 1, false, [], Dawn(c), none));
    tr := Act(c, tr, Go(Lower), Scene(Fresh().(pc := Work), Fresh(), 1, false, [], Dawn(c), none));
    Starts(c, i);
    tr := RidesUp(c, tr, Pipeline.Init(c.pipe), i);
    tr := Act(c, tr, Go(Upper), Scene(Fresh().(pc := Work), Fresh().(pc := CheckInit), 1, false, [], Dawn(c), none));
    tr := Act(c, tr, Go(Upper), Scene(Fresh().(pc := Work), Fresh().(pc := Work), 1, false, [], Dawn(c), none));
  }

  lemma OneIsCounted(c: Ropeway.Config, i: nat) returns (tr: seq<Ropeway.State>)
    requires Ropeway.ValidConfig(c) && CanBoard(c, i)
    ensures Early(c, tr)
    ensures tr[|tr| - 1] ==
              Ropeway.State(Counted(c, i),
                            Scene(Fresh().(pc := Work), Fresh().(pc := Work), 1, false, [], Dawn(c), Log([], [], [])),
                            [], 0, [], [], Ropeway.Busy, Ropeway.Checking)
  {
    var p := Pipeline.Init(c.pipe);
    tr := OneArrives(c, i);
    Starts(c, i);
    LostPermit.CountingAloneIs(c.pipe, p, i);
    tr := UpperServes(c, tr, Pipeline.ReceiveArrival, LostPermit.AtTop(p, i));
    tr := UpperServes(c, tr, Pipeline.CountArrival, Counted(c, i));
  }

  function Log1(c: Ropeway.Config): Log
    requires Ropeway.ValidConfig(c)
  {
    Log([], [], [Dawn(c)])
  }

  function Over(c: Ropeway.Config): int
    requires Ropeway.ValidConfig(c)
  {
    Dawn(c) + Tenures.DurationMs(c)
  }

  /** The upper worker, having counted an arrival, detects danger; the lower one begins its loop. */
  lemma UpperDetectsDanger(c: Ropeway.Config, i: nat) returns (tr: seq<Ropeway.State>)
    requires Ropeway.ValidConfig(c) && CanBoard(c, i) && c.pipe.danger
    ensures Early(c, tr) && tr[|tr| - 1].es == []
    ensures tr[|tr| - 1].e ==
              Scene(Fresh(), Fresh().(pc := TryLock, books := Books(Dawn(c), 0, 0)), 1, false, [], Dawn(c), Log1(c))
  {
    var detecting := Fresh().(pc := TryLock, books := Books(Dawn(c), 0, 0));
    tr := OneIsCounted(c, i);
    tr := UpperDetects(c, tr, Scene(Fresh().(pc := Work), detecting, 1, false, [], Dawn(c), Log1(c)));
    tr := LowerRestarts(c, tr, Scene(Fresh(), detecting, 1, false, [], Dawn(c), Log1(c)));
  }

  /** The upper worker raises emergency_stop and has yet to signal. */
  lemma RaisesStop(c: Ropeway.Config, i: nat) returns (tr: seq<Ropeway.State>)
    requires Ropeway.ValidConfig(c) && CanBoard(c, i) && c.pipe.danger
    ensures Early(c, tr) && tr[|tr| - 1].es == []
    ensures tr[|tr| - 1].e == Scene(Fresh(), Holder(SendUsr1, false, Dawn(c)), 0, true, [], Dawn(c), Log1(c))
  {
    var m := Dawn(c);
    tr := UpperDetectsDanger(c, i);
    tr := Acquire(c, tr, Upper,
                  Scene(Fresh(), Holder(MarkInit, false, m).(initiator := false, start := 0), 0, false, [], m,
                        Log1(c)));
    tr := Act(c, tr, Go(Upper), Scene(Fresh(), Holder(RaiseStop, false, m), 0, false, [], m, Log1(c)));
    tr := Act(c, tr, Go(Upper), Scene(Fresh(), Holder(SendUsr1, false, m), 0, true, [], m, Log1(c)));
  }

  /** The lower worker reads it and acknowledges, before the signal is sent. */
  lemma AcknowledgesEarly(c: Ropeway.Config, i: nat) returns (tr: seq<Ropeway.State>)
    requires Ropeway.ValidConfig(c) && CanBoard(c, i) && c.pipe.danger
    ensures Early(c, tr) && tr[|tr| - 1].es == []
    ensures tr[|tr| - 1].e ==
              Scene(Fresh().(pc := AckWait), Holder(SendUsr1, false, Dawn(c)), 0, true, [], Dawn(c), Log1(c))
  {
    var m, upper := Dawn(c), Holder(SendUsr1, false, Dawn(c));
    tr := RaisesStop(c, i);
    tr := Act(c, tr, Go(Lower), Scene(Fresh().(pc := CheckInit), upper, 0, true, [], m, Log1(c)));
    tr := Act(c, tr, Go(Lower), Scene(Fresh().(pc := ReadStop), upper, 0, true, [], m, Log1(c)));
    tr := Act(c, tr, Go(Lower), Scene(Fresh().(pc := AckEnter), upper, 0, true, [], m, Log1(c)));
    tr := Act(c, tr, Go(Lower), Scene(Fresh().(pc := AckRaise), upper, 0, true, [], m, Log1(c)));
    tr := Act(c, tr, Go(Lower), Scene(Fresh().(pc := AckWait), upper, 0, true, [], m, Log1(c)));
  }

  /** The signal comes during the wait. */
  lemma SignalComes(c: Ropeway.Config, i: nat) returns (tr: seq<Ropeway.State>)
    requires Ropeway.ValidConfig(c) && CanBoard(c, i) && c.pipe.danger
    ensures Early(c, tr) && tr[|tr| - 1].es == []
    ensures tr[|tr| - 1].e ==
              Scene(Fresh().(pc := AckWait, flag := true), Holder(Top, false, Dawn(c)), 0, true, [], Dawn(c), Log1(c))
  {
    var m, waiting := Dawn(c), Fresh().(pc := AckWait);
    tr := AcknowledgesEarly(c, i);
    tr := Act(c, tr, Go(Upper), Scene(waiting.(pending := true), Holder(Top, false, m), 0, true, [], m, Log1(c)));
    tr := Act(c, tr, Deliver(Lower), Scene(waiting.(flag := true), Holder(Top, false, m), 0, true, [], m, Log1(c)));
  }

  /** The emergency lasts its duration. */
  lemma TimePasses(c: Ropeway.Config, tr: seq<Ropeway.State>) returns (tr': seq<Ropeway.State>)
    requires Ropeway.ValidConfig(c) && Early(c, tr) && tr[|tr| - 1].es == [] && tr[|tr| - 1].e.now == Dawn(c)
    ensures Early(c, tr') && tr'[|tr'| - 1].e == tr[|tr| - 1].e.(now := Over(c))
  {
    var s := tr[|tr| - 1];
    LateIsLater(c);
    LoopShows(c);
    assert [] + [Clock.Resume(Late(c))] == Loop(c)[..1] && Loop(c)[..1] + [Clock.Tick(Late(c))] == Loop(c);
    tr' := Continue(c, tr, Ropeway.Time(Clock.Resume(Late(c))), s.(es := Loop(c)[..1]));
    assert !Clock.Stopped(Loop(c)[..1]);
    tr' := Continue(c, tr', Ropeway.Time(Clock.Tick(Late(c))), s.(es := Loop(c), e := s.e.(now := Over(c))));
  }

  lemma SeemsOver(c: Ropeway.Config, i: nat) returns (tr: seq<Ropeway.State>)
    requires Ropeway.ValidConfig(c) && RopewayTheorems.PositiveStart(c) && CanBoard(c, i) && c.pipe.danger
    ensures Early(c, tr)
    ensures tr[|tr| - 1].e ==
              Scene(Fresh().(pc := AckWait, flag := true), Holder(SendReady, false, Dawn(c)), 0, true, [], Over(c),
                    Log1(c))
  {
    var m, waiting := Dawn(c), Fresh().(pc := AckWait, flag := true);
    tr := SignalComes(c, i);
    tr := TimePasses(c, tr);
    tr := Act(c, tr, Go(Upper), Scene(waiting, Holder(CheckInit, false, m), 0, true, [], Over(c), Log1(c)));
    tr := Act(c, tr, Go(Upper), Scene(waiting, Holder(SendReady, false, m), 0, true, [], Over(c), Log1(c)));
  }

  lemma Asks(c: Ropeway.Config, i: nat) returns (tr: seq<Ropeway.State>)
    requires Ropeway.ValidConfig(c) && RopewayTheorems.PositiveStart(c) && CanBoard(c, i) && c.pipe.danger
    ensures Early(c, tr)
    ensures tr[|tr| - 1].e ==
              Scene(Fresh().(pc := AckAnswer, flag := true), Holder(AwaitReady, false, Dawn(c)), 0, true, [], Over(c),
                    Log1(c))
  {
    var m, now, flagged := Dawn(c), Over(c), Fresh().(flag := true);
    tr := SeemsOver(c, i);
    tr := Act(c, tr, Go(Upper),
              Scene(flagged.(pc := AckWait), Holder(AwaitReady, false, m), 0, true, [WorkerMsg(Lower, ReadyToResume)],
                    now, Log1(c)));
    tr := Act(c, tr, Go(Lower),
              Scene(flagged.(pc := AckAnswer), Holder(AwaitReady, false, m), 0, true, [], now, Log1(c)));
  }

  /** The workers agree to resume; the lower one has yet to clear emergency_stop. */
  lemma Agree(c: Ropeway.Config, i: nat) returns (tr: seq<Ropeway.State>)
    requires Ropeway.ValidConfig(c) && RopewayTheorems.PositiveStart(c) && CanBoard(c, i) && c.pipe.danger
    ensures Early(c, tr)
    ensures tr[|tr| - 1].e ==
              Scene(Fresh().(pc := AckClear, flag := true), Holder(ClearStop, true, Dawn(c)), 0, true, [], Over(c),
                    Log1(c))
  {
    var m, now, clearing := Dawn(c), Over(c), Fresh().(pc := AckClear, flag := true);
    tr := Asks(c, i);
    tr := Act(c, tr, Go(Lower),
              Scene(clearing, Holder(AwaitReady, true, m), 0, true, [WorkerMsg(Upper, IAmReady)], now, Log1(c)));
    tr := Act(c, tr, Go(Upper), Scene(clearing, Holder(ClearStop, true, m), 0, true, [], now, Log1(c)));
  }

  function Log2(c: Ropeway.Config): Log
    requires Ropeway.ValidConfig(c)
  {
    Log1(c).(tenures := [Tenure(Upper, Dawn(c), Over(c))])
  }

  /** The upper worker ends the emergency before the lower one clears. */
  lemma Clears(c: Ropeway.Config, i: nat) returns (tr: seq<Ropeway.State>)
    requires Ropeway.ValidConfig(c) && RopewayTheorems.PositiveStart(c) && CanBoard(c, i) && c.pipe.danger
    ensures Early(c, tr)
    ensures tr[|tr| - 1].e == Scene(Fresh().(pc := AckClear, flag := true), Holder(PostClear, true, Dawn(c)),
                                    0, false, [], Over(c), Log1(c))
  {
    var m, now, lower := Dawn(c), Over(c), Fresh().(pc := AckClear, flag := true);
    tr := Agree(c, i);
    tr := Act(c, tr, Go(Upper), Scene(lower, Holder(Capture, true, m), 0, false, [], now, Log1(c)));
    tr := Act(c, tr, Go(Upper), Scene(lower, Holder(PostClear, true, m), 0, false, [], now, Log1(c)));
  }

  lemma EndsEmergency(c: Ropeway.Config, i: nat) returns (tr: seq<Ropeway.State>)
    requires Ropeway.ValidConfig(c) && RopewayTheorems.PositiveStart(c) && CanBoard(c, i) && c.pipe.danger
    ensures Early(c, tr)
    ensures tr[|tr| - 1].e ==
              Scene(Fresh().(pc := AckClear, flag := true), Holder(Unlock, true, Dawn(c)), 0, false, [], Over(c),
                    Log1(c))
  {
    tr := Clears(c, i);
    tr := Act(c, tr, Go(Upper), Scene(Fresh().(pc := AckClear, flag := true), Holder(Unlock, true, Dawn(c)),
                                      0, false, [], Over(c), Log1(c)));
  }

  /** It goes back to its queue. */
  lemma LeftClearing(c: Ropeway.Config, i: nat) returns (tr: seq<Ropeway.State>)
    requires Ropeway.ValidConfig(c) && RopewayTheorems.PositiveStart(c) && CanBoard(c, i) && c.pipe.danger
    ensures Early(c, tr)
    ensures tr[|tr| - 1].e ==
              Scene(Fresh().(pc := AckClear, flag := true), Released(Work, Dawn(c)), 1, false, [], Over(c), Log2(c))
  {
    var m, now, lower := Dawn(c), Over(c), Fresh().(pc := AckClear, flag := true);
    tr := EndsEmergency(c, i);
    var retiring := Scene(lower, Holder(Retire, true, m).(holds := false), 1, false, [], now, Log2(c));
    ReleaseIs(Ropeway.Protocol(c), Upper, tr[|tr| - 1].e, retiring);
    tr := Act(c, tr, Go(Upper), retiring);
    tr := Act(c, tr, Go(Upper), Scene(lower, Released(Top, m), 1, false, [], now, Log2(c)));
    tr := Act(c, tr, Go(Upper), Scene(lower, Released(CheckInit, m), 1, false, [], now, Log2(c)));
    tr := Act(c, tr, Go(Upper), Scene(lower, Released(Work, m), 1, false, [], now, Log2(c)));
  }

  // ----- a worker stranded in its acknowledgement

  /** The lower worker waits to be told to resume, with nobody there to tell it. */
  predicate Stranded(s: State) {
    && s.lower.pc == AckWait && s.lock == 1 && |s.queue| == 0 && s.stop
    && !s.upper.initiator && !s.upper.flag && !s.upper.pending
    && s.upper.pc in {Top, CheckInit, Work}
  }

  /** For any party that can board there is a run to a state in which the emergency is over and the
      lower worker, having acknowledged it twice, waits with emergency_stop raised. */
  lemma HandshakeStrands(c: Ropeway.Config, i: nat) returns (tr: seq<Ropeway.State>)
    requires Ropeway.ValidConfig(c) && RopewayTheorems.PositiveStart(c) && CanBoard(c, i) && c.pipe.danger
    ensures Ropeway.Run(c, tr) && Stranded(tr[|tr| - 1].e)
  {
    var now, upper := Over(c), Released(Work, Dawn(c));
    tr := LeftClearing(c, i);
    tr := Act(c, tr, Go(Lower), Scene(Fresh().(flag := true), upper, 1, false, [], now, Log2(c)));
    tr := Act(c, tr, Go(Lower), Scene(Fresh().(pc := AckEnter), upper, 1, false, [], now, Log2(c)));
    tr := Act(c, tr, Go(Lower), Scene(Fresh().(pc := AckRaise), upper, 1, false, [], now, Log2(c)));
    tr := Act(c, tr, Go(Lower), Scene(Fresh().(pc := AckWait), upper, 1, true, [], now, Log2(c)));
  }

  ghost predicate NeverStrands(c: Ropeway.Config)
    requires Ropeway.ValidConfig(c)
  {
    forall tr: seq<Ropeway.State> | Ropeway.Run(c, tr) :: !Stranded(tr[|tr| - 1].e)
  }

  /** The lower worker is never stranded, in any run, if and only if no emergency can happen: danger
      detection is disabled, or nobody can board. */
  lemma NeverStrandsIff(c: Ropeway.Config)
    requires Ropeway.ValidConfig(c) && RopewayTheorems.PositiveStart(c)
    ensures NeverStrands(c) <==> RopewayTheorems.Harmless(c)
  {
    if RopewayTheorems.Harmless(c) {
      forall tr: seq<Ropeway.State> | Ropeway.Run(c, tr) ensures !Stranded(tr[|tr| - 1].e) {
        RopewayTheorems.NoDangerNoStop(c, tr, |tr| - 1);
      }
    } else {
      var i := Boarder(c);
      var tr := HandshakeStrands(c, i);
    }
  }

  lemma StrandedStays(c: Config, s: State, step: Step)
    requires Stranded(s) && Enabled(c, s, step) && step != Danger(Upper)
    ensures Stranded(Apply(c, s, step))
  {
  }

  lemma StrandedStep(c: Ropeway.Config, s: Ropeway.State, step: Ropeway.Step)
    requires Ropeway.ValidConfig(c) && Ropeway.Enabled(c, s, step) && Stranded(s.e)
    requires |Ropeway.Apply(c, s, step).upperSeen| == |s.upperSeen|
    ensures Stranded(Ropeway.Apply(c, s, step).e)
  {
    var part := Ropeway.ProtocolPart(c, s, step);
    if part.Some? { StrandedStays(Ropeway.Protocol(c), s.e, part.value); }
  }

  lemma SeenGrows(c: Ropeway.Config, tr: seq<Ropeway.State>, n: nat)
    requires Ropeway.ValidConfig(c) && Ropeway.Run(c, tr) && 0 < n < |tr|
    ensures |tr[n - 1].upperSeen| <= |tr[n].upperSeen|
  {
    var step := RopewayTheorems.StepAt(c, tr, n - 1);
  }

  lemma {:induction false} SeenOnlyGrows(c: Ropeway.Config, tr: seq<Ropeway.State>, n: nat, m: nat)
    requires Ropeway.ValidConfig(c) && Ropeway.Run(c, tr) && n <= m < |tr|
    ensures |tr[n].upperSeen| <= |tr[m].upperSeen|
    decreases m
  {
    if n < m {
      SeenOnlyGrows(c, tr, n, m - 1);
      SeenGrows(c, tr, m);
    }
  }

  lemma NextStranded(c: Ropeway.Config, tr: seq<Ropeway.State>, n: nat)
    requires Ropeway.ValidConfig(c) && Ropeway.Run(c, tr) && 0 < n < |tr| && Stranded(tr[n - 1].e)
    requires |tr[n].upperSeen| == |tr[n - 1].upperSeen|
    ensures Stranded(tr[n].e)
  {
    var step := RopewayTheorems.StepAt(c, tr, n - 1);
    StrandedStep(c, tr[n - 1], step);
  }

  /** Only a new danger at the upper platform can free it: until one is detected there, the lower
      worker waits and emergency_stop stays raised. */
  lemma {:induction false} StrandedUntilDanger(c: Ropeway.Config, tr: seq<Ropeway.State>, n: nat, m: nat)
    requires Ropeway.ValidConfig(c) && Ropeway.Run(c, tr) && n <= m < |tr| && Stranded(tr[n].e)
    requires |tr[m].upperSeen| == |tr[n].upperSeen|
    ensures Stranded(tr[m].e)
    decreases m
  {
    if n < m {
      SeenOnlyGrows(c, tr, n, m - 1);
      SeenGrows(c, tr, m);
      StrandedUntilDanger(c, tr, n, m - 1);
      NextStranded(c, tr, m);
    }
  }
}
