/**
 A run of the whole ropeway in which an emergency takes no running time at all: the published
 clock is stale when the lower worker, having buffered a request, detects danger and acquires the
 lock, and a tick then publishes a time a whole danger duration later.
 */
module ShortTenures {
  import Pipeline
  import Rides
  import Emergency
  import Clock
  import ClockTheorems
  import opened Ropeway
  import opened RopewayTheorems
  import opened Tenures
  import opened Outings

  // ----- the claim, and what bears it out

  /** The running time since a moment amounts to the danger duration. */
  predicate Amounts(c: Config, es: seq<Clock.Event>, m: nat)
    requires m <= |es|
  {
    ClockTheorems.Simulated(c.day, RunningSince(c, es, m)) >= c.duration as real
  }

  /** The running time since the lock was acquired amounts to the danger duration. */
  ghost predicate LongTenure(c: Config, s: State) {
    s.since <= |s.es| && Amounts(c, s.es, s.since)
  }

  predicate Releasing(e: Emergency.State) {
    e.lower.pc == Emergency.Unlock || e.upper.pc == Emergency.Unlock
  }

  ghost predicate TenuresLast(c: Config)
    requires ValidConfig(c)
  {
    forall tr: seq<State> | Run(c, tr) ::
      Releasing(tr[|tr| - 1].e) ==> LongTenure(c, tr[|tr| - 1])
  }

  /** The running time between two dangers that a worker detected amounts to the danger duration. */
  ghost predicate FarApart(c: Config, s: State, r: Emergency.Role, i: nat, j: nat) {
    && i < j < |Seen(s, r)| && Seen(s, r)[i] <= Seen(s, r)[j] <= |s.es|
    && Amounts(c, s.es[..Seen(s, r)[j]], Seen(s, r)[i])
  }

  ghost predicate AllFarApart(c: Config, s: State, r: Emergency.Role) {
    forall i, j | 0 <= i < j < |Seen(s, r)| :: FarApart(c, s, r, i, j)
  }

  ghost predicate DangersLast(c: Config)
    requires ValidConfig(c)
  {
    forall tr: seq<State> | Run(c, tr) ::
      AllFarApart(c, tr[|tr| - 1], Emergency.Lower) && AllFarApart(c, tr[|tr| - 1], Emergency.Upper)
  }

  // ----- the clock

  /** The real time at which a clock without pauses has advanced by the danger duration. */
  function Late(c: Config): real
    requires ValidConfig(c)
  {
    c.realStart + c.duration as real / c.day.acceleration
  }

  /** The time server's loop runs handle_resume, and then, at once, ticks. */
  function Loop(c: Config): seq<Clock.Event>
    requires ValidConfig(c)
  {
    [Clock.Resume(Late(c)), Clock.Tick(Late(c))]
  }

  lemma DivideThenTimes(d: real, a: real)
    requires d >= 0.0 && a > 0.0
    ensures d / a >= 0.0 && (d / a) * a == d
  {
  }

  lemma LoopIsHistory(start: real, t: real)
    requires start <= t
    ensures Clock.History(start, [Clock.Resume(t)]) && Clock.History(start, [Clock.Resume(t), Clock.Tick(t)])
  {
    var one, two := [Clock.Resume(t)], [Clock.Resume(t), Clock.Tick(t)];
    assert one[..0] == [] && two[..0] == [] && two[..1] == one;
    assert !Clock.Stopped(one);
  }

  lemma LoopRuns(start: real, t: real)
    ensures Clock.Running(start, [Clock.Resume(t)]) == t - start
    ensures Clock.Running(start, [Clock.Resume(t), Clock.Tick(t)]) == t - start
    ensures Clock.Counted(start, [Clock.Resume(t), Clock.Tick(t)]) == t - start
  {
    var one, two := [Clock.Resume(t)], [Clock.Resume(t), Clock.Tick(t)];
    assert one[..0] == [] && two[..1] == one;
    assert !Clock.Stopped(one) && !Clock.Unsettled(one);
    assert Clock.Lag(start, one) == 0.0 && Clock.Overtaken(start, one) == 0.0;
  }

  lemma SpanTakes(day: Clock.Day, d: real, span: real)
    requires d >= 0.0 && day.acceleration > 0.0 && span == d / day.acceleration
    ensures 0.0 <= span && ClockTheorems.Simulated(day, span) == d
  {
    DivideThenTimes(d, day.acceleration);
  }

  lemma LateIsLater(c: Config)
    requires ValidConfig(c)
    ensures c.realStart <= Late(c)
    ensures ClockTheorems.Simulated(c.day, Late(c) - c.realStart) == c.duration as real
  {
    SpanTakes(c.day, c.duration as real, Late(c) - c.realStart);
  }

  lemma WholeMinutes(start: int, d: nat)
    requires 0 <= start
    ensures Clock.Truncate((start as real + d as real) * 60.0 * 1000.0) == (start + d) * 60000
  {
    assert (start as real + d as real) * 60.0 * 1000.0 == ((start + d) * 60000) as real;
  }

  lemma LoopShows(c: Config)
    requires ValidConfig(c)
    ensures Loop(c)[..1] == [Clock.Resume(Late(c))]
    ensures Clock.After(Started(c), Loop(c)[..1]).published == Started(c).published
    ensures Clock.After(Started(c), Loop(c)).published == Started(c).published + DurationMs(c)
  {
    var es, day := Loop(c), c.day;
    assert es[..1][..0] == [] && es[..2] == es;
    LateIsLater(c);
    LoopIsHistory(c.realStart, Late(c));
    LoopRuns(c.realStart, Late(c));
    ClockTheorems.TickPublishesCounted(c.day, c.realStart, es);
    ClockTheorems.SimMsFrom(day, Late(c) - c.realStart, c.duration as real);
    WholeMinutes(day.start, c.duration);
  }

  // ----- the emergency

  function FirstDanger(c: Config): Emergency.Log
    requires ValidConfig(c)
  {
    Emergency.Log([], [Dawn(c)], [])
  }

  /** One party waits on the chair being loaded, and the clock has gone round its loop once. */
  function Whole(c: Config, i: nat, e: Emergency.State): State
    requires ValidConfig(c) && CanBoard(c, i)
  {
    State(Rides.Loaded(Pipeline.Init(c.pipe), i), e, Loop(c), 1, [1], [], Open, Open)
  }

  function Asking(): seq<Emergency.WorkerMsg> {
    [Emergency.WorkerMsg(Emergency.Upper, Emergency.ReadyToResume)]
  }

  function Answering(): seq<Emergency.WorkerMsg> {
    [Emergency.WorkerMsg(Emergency.Lower, Emergency.IAmReady)]
  }

  /** Time passes without a tick while somebody boards; then danger is detected. */
  lemma DetectsLate(c: Config, i: nat) returns (tr: seq<State>)
    requires ValidConfig(c) && CanBoard(c, i) && c.pipe.danger
    ensures Early(c, tr)
    ensures tr[|tr| - 1] == State(Rides.Loaded(Pipeline.Init(c.pipe), i),
              Scene(Fresh().(pc := Emergency.TryLock, books := Emergency.Books(Dawn(c), 0, 0)), Fresh(), 1, false, [],
                    Dawn(c), FirstDanger(c)),
              Loop(c)[..1], 0, [1], [], Open, Open)
  {
    tr := OneBoards(c, i);
    var s := tr[|tr| - 1];
    LateIsLater(c);
    LoopShows(c);
    assert [] + [Clock.Resume(Late(c))] == Loop(c)[..1];
    tr := Continue(c, tr, Time(Clock.Resume(Late(c))), s.(es := Loop(c)[..1]));
    var books := Emergency.Books(Dawn(c), 0, 0);
    tr := LowerDetects(c, tr, Scene(Fresh().(pc := Emergency.TryLock, books := books), Fresh(), 1, false, [],
                                    Dawn(c), FirstDanger(c)));
  }

  lemma StartsLate(c: Config, i: nat) returns (tr: seq<State>)
    requires ValidConfig(c) && CanBoard(c, i) && c.pipe.danger
    ensures Early(c, tr)
    ensures tr[|tr| - 1] == State(Rides.Loaded(Pipeline.Init(c.pipe), i),
              Scene(Holder(Emergency.Top, false, Dawn(c)), Fresh().(pending := true), 0, true, [],
                    Dawn(c), FirstDanger(c)),
              Loop(c)[..1], 1, [1], [], Open, Open)
  {
    var m, log := Dawn(c), FirstDanger(c);
    tr := DetectsLate(c, i);
    tr := Acquire(c, tr, Emergency.Lower,
                  Scene(Holder(Emergency.MarkInit, false, m).(initiator := false, start := 0), Fresh(), 0, false, [],
                        m, log));
    tr := Act(c, tr, Emergency.Go(Emergency.Lower),
              Scene(Holder(Emergency.RaiseStop, false, m), Fresh(), 0, false, [], m, log));
    tr := Act(c, tr, Emergency.Go(Emergency.Lower),
              Scene(Holder(Emergency.SendUsr1, false, m), Fresh(), 0, true, [], m, log));
    tr := Act(c, tr, Emergency.Go(Emergency.Lower),
              Scene(Holder(Emergency.Top, false, m), Fresh().(pending := true), 0, true, [], m, log));
  }

  /** A tick shows a time a whole duration later. */
  lemma TickComes(c: Config, i: nat) returns (tr: seq<State>)
    requires ValidConfig(c) && CanBoard(c, i) && c.pipe.danger
    ensures Early(c, tr)
    ensures tr[|tr| - 1] == Whole(c, i,
              Scene(Holder(Emergency.Top, false, Dawn(c)), Fresh().(pending := true), 0, true, [],
                    Dawn(c) + DurationMs(c), FirstDanger(c)))
  {
    tr := StartsLate(c, i);
    var e := tr[|tr| - 1].e;
    LateIsLater(c);
    LoopShows(c);
    assert Loop(c)[..1] + [Clock.Tick(Late(c))] == Loop(c);
    assert !Clock.Stopped(Loop(c)[..1]);
    tr := Continue(c, tr, Time(Clock.Tick(Late(c))), Whole(c, i, e.(now := Dawn(c) + DurationMs(c))));
  }

  /** The duration seems over, and the worker asks the other one to resume. */
  lemma AsksToResume(c: Config, i: nat) returns (tr: seq<State>)
    requires ValidConfig(c) && PositiveStart(c) && CanBoard(c, i) && c.pipe.danger
    ensures Early(c, tr)
    ensures tr[|tr| - 1] == Whole(c, i,
              Scene(Holder(Emergency.AwaitReady, false, Dawn(c)), Fresh().(pending := true), 0, true, Asking(),
                    Dawn(c) + DurationMs(c), FirstDanger(c)))
  {
    var log, now, upper := FirstDanger(c), Dawn(c) + DurationMs(c), Fresh().(pending := true);
    tr := TickComes(c, i);
    tr := Act(c, tr, Emergency.Go(Emergency.Lower),
              Scene(Holder(Emergency.CheckInit, false, Dawn(c)), upper, 0, true, [], now, log));
    tr := Act(c, tr, Emergency.Go(Emergency.Lower),
              Scene(Holder(Emergency.SendReady, false, Dawn(c)), upper, 0, true, [], now, log));
    tr := Act(c, tr, Emergency.Go(Emergency.Lower),
              Scene(Holder(Emergency.AwaitReady, false, Dawn(c)), upper, 0, true, Asking(), now, log));
  }

  /** The other worker takes the signal and reaches its wait. */
  lemma OtherAcknowledges(c: Config, i: nat) returns (tr: seq<State>)
    requires ValidConfig(c) && PositiveStart(c) && CanBoard(c, i) && c.pipe.danger
    ensures Early(c, tr)
    ensures tr[|tr| - 1] == Whole(c, i,
              Scene(Holder(Emergency.AwaitReady, false, Dawn(c)), Fresh().(pc := Emergency.AckWait), 0, true, Asking(),
                    Dawn(c) + DurationMs(c), FirstDanger(c)))
  {
    var log, now, lower := FirstDanger(c), Dawn(c) + DurationMs(c), Holder(Emergency.AwaitReady, false, Dawn(c));
    tr := AsksToResume(c, i);
    tr := Act(c, tr, Emergency.Deliver(Emergency.Upper),
              Scene(lower, Fresh().(flag := true), 0, true, Asking(), now, log));
    tr := Act(c, tr, Emergency.Go(Emergency.Upper),
              Scene(lower, Fresh().(pc := Emergency.AckEnter), 0, true, Asking(), now, log));
    tr := Act(c, tr, Emergency.Go(Emergency.Upper),
              Scene(lower, Fresh().(pc := Emergency.AckRaise), 0, true, Asking(), now, log));
    tr := Act(c, tr, Emergency.Go(Emergency.Upper),
              Scene(lower, Fresh().(pc := Emergency.AckWait), 0, true, Asking(), now, log));
  }

  /** The other worker answers; it has yet to clear emergency_stop. */
  lemma OtherAnswers(c: Config, i: nat) returns (tr: seq<State>)
    requires ValidConfig(c) && PositiveStart(c) && CanBoard(c, i) && c.pipe.danger
    ensures Early(c, tr)
    ensures tr[|tr| - 1] == Whole(c, i,
              Scene(Holder(Emergency.AwaitReady, true, Dawn(c)), Fresh().(pc := Emergency.AckClear), 0, true,
                    Answering(), Dawn(c) + DurationMs(c), FirstDanger(c)))
  {
    var log, now := FirstDanger(c), Dawn(c) + DurationMs(c);
    tr := OtherAcknowledges(c, i);
    tr := Act(c, tr, Emergency.Go(Emergency.Upper),
              Scene(Holder(Emergency.AwaitReady, false, Dawn(c)), Fresh().(pc := Emergency.AckAnswer), 0, true, [],
                    now, log));
    tr := Act(c, tr, Emergency.Go(Emergency.Upper),
              Scene(Holder(Emergency.AwaitReady, true, Dawn(c)), Fresh().(pc := Emergency.AckClear), 0, true,
                    Answering(), now, log));
  }

  lemma AboutToRelease(c: Config, i: nat) returns (tr: seq<State>)
    requires ValidConfig(c) && PositiveStart(c) && CanBoard(c, i) && c.pipe.danger
    ensures Early(c, tr)
    ensures tr[|tr| - 1] == Whole(c, i,
              Scene(Holder(Emergency.Unlock, true, Dawn(c)), Fresh().(pc := Emergency.AckClear), 0, false, [],
                    Dawn(c) + DurationMs(c), FirstDanger(c)))
  {
    var log, now, upper := FirstDanger(c), Dawn(c) + DurationMs(c), Fresh().(pc := Emergency.AckClear);
    tr := OtherAnswers(c, i);
    tr := Act(c, tr, Emergency.Go(Emergency.Lower),
              Scene(Holder(Emergency.ClearStop, true, Dawn(c)), upper, 0, true, [], now, log));
    tr := Act(c, tr, Emergency.Go(Emergency.Lower),
              Scene(Holder(Emergency.Capture, true, Dawn(c)), upper, 0, false, [], now, log));
    tr := Act(c, tr, Emergency.Go(Emergency.Lower),
              Scene(Holder(Emergency.PostClear, true, Dawn(c)), upper, 0, false, [], now, log));
    tr := Act(c, tr, Emergency.Go(Emergency.Lower),
              Scene(Holder(Emergency.Unlock, true, Dawn(c)), upper, 0, false, [], now, log));
  }

  /** For any party that can board there is a run with a tenure that takes no running time. */
  lemma ShortTenure(c: Config, i: nat) returns (tr: seq<State>)
    requires ValidConfig(c) && PositiveStart(c) && CanBoard(c, i) && c.pipe.danger
    ensures Run(c, tr) && tr[|tr| - 1].e.lower.pc == Emergency.Unlock
    ensures tr[|tr| - 1].since <= |tr[|tr| - 1].es|
    ensures RunningSince(c, tr[|tr| - 1].es, tr[|tr| - 1].since) == 0.0
  {
    tr := AboutToRelease(c, i);
    LoopShows(c);
    LoopRuns(c.realStart, Late(c));
  }

  // ----- back to work, for a second danger

  function AfterTenure(c: Config): Emergency.Log
    requires ValidConfig(c)
  {
    FirstDanger(c).(tenures := [Emergency.Tenure(Emergency.Lower, Dawn(c), Dawn(c) + DurationMs(c))])
  }

  /** The scene after the first emergency: the lower worker at work, the upper one late. */
  function Afterwards(c: Config, pc: Emergency.Pc): Emergency.State
    requires ValidConfig(c)
  {
    Scene(Released(pc, Dawn(c)), Fresh().(pc := Emergency.AckClear), 1, false, [], Dawn(c) + DurationMs(c),
          AfterTenure(c))
  }

  lemma ReleasesLock(c: Config, i: nat) returns (tr: seq<State>)
    requires ValidConfig(c) && PositiveStart(c) && CanBoard(c, i) && c.pipe.danger
    ensures Early(c, tr) && tr[|tr| - 1] == Whole(c, i, Afterwards(c, Emergency.Top))
  {
    tr := AboutToRelease(c, i);
    var retired := Holder(Emergency.Retire, true, Dawn(c)).(holds := false);
    var retiring := Afterwards(c, Emergency.Top).(lower := retired);
    ReleaseIs(Protocol(c), Emergency.Lower, tr[|tr| - 1].e, retiring);
    tr := Act(c, tr, Emergency.Go(Emergency.Lower), retiring);
    tr := Act(c, tr, Emergency.Go(Emergency.Lower), Afterwards(c, Emergency.Top));
  }

  /** From the head of its loop to its queue. */
  lemma GoesToQueue(c: Config, tr: seq<State>) returns (tr': seq<State>)
    requires ValidConfig(c) && Early(c, tr) && tr[|tr| - 1].e == Afterwards(c, Emergency.Top)
    ensures Early(c, tr') && tr'[|tr'| - 1] == tr[|tr| - 1].(e := Afterwards(c, Emergency.Work))
  {
    tr' := Act(c, tr, Emergency.Go(Emergency.Lower), Afterwards(c, Emergency.CheckInit));
    tr' := Act(c, tr', Emergency.Go(Emergency.Lower), Afterwards(c, Emergency.ReadStop));
    tr' := Act(c, tr', Emergency.Go(Emergency.Lower), Afterwards(c, Emergency.Work));
  }

  /** The pipeline after the party's first ride, not yet counted at the top. */
  function Ridden(c: Config, i: nat): Pipeline.State
    requires CanBoard(c, i)
  {
    Rides.Returned(Pipeline.Init(c.pipe), i)
  }

  lemma RiddenIsReady(c: Config, i: nat)
    requires ValidConfig(c) && CanBoard(c, i)
    ensures Rides.Ready(c.pipe, Ridden(c, i)) && Rides.Welcome(c.pipe, Ridden(c, i), i)
  {
    Starts(c, i);
  }

  lemma RidesAgain(c: Config, i: nat) returns (tr: seq<State>)
    requires ValidConfig(c) && PositiveStart(c) && CanBoard(c, i) && c.pipe.danger
    ensures Early(c, tr)
    ensures tr[|tr| - 1] == State(Rides.Asked(Ridden(c, i), i), Afterwards(c, Emergency.Work), Loop(c), 1, [1], [],
                                  Open, Open)
  {
    tr := ReleasesLock(c, i);
    tr := GoesToQueue(c, tr);
    Starts(c, i);
    tr := RidesUp(c, tr, Pipeline.Init(c.pipe), i);
    tr := LowerRestarts(c, tr, Afterwards(c, Emergency.Top));
    tr := GoesToQueue(c, tr);
    RiddenIsReady(c, i);
    var path := Rides.AsksAlone(c.pipe, Ridden(c, i), i);
    tr := Wander(c, tr, path);
  }

  function TwoDangers(c: Config): Emergency.Log
    requires ValidConfig(c)
  {
    AfterTenure(c).(lowerDangers := [Dawn(c), Dawn(c) + DurationMs(c)])
  }

  /** A second danger, detected with no running time since the first. */
  lemma DetectsAgain(c: Config, i: nat) returns (tr: seq<State>)
    requires ValidConfig(c) && PositiveStart(c) && CanBoard(c, i) && c.pipe.danger
    ensures Early(c, tr)
    ensures tr[|tr| - 1] == State(Rides.Loaded(Ridden(c, i), i),
              Afterwards(c, Emergency.TryLock).(
                lower := Released(Emergency.TryLock, Dawn(c)).(
                  books := Emergency.Books(Dawn(c) + DurationMs(c), 0, 0)),
                log := TwoDangers(c)),
              Loop(c), 1, [1, 2], [], Open, Open)
  {
    var now := Dawn(c) + DurationMs(c);
    tr := RidesAgain(c, i);
    RiddenIsReady(c, i);
    tr := IsLoaded(c, tr, Ridden(c, i), i);
    assert [Dawn(c)] + [now] == [Dawn(c), now] && [1] + [|Loop(c)|] == [1, 2];
    tr := LowerDetects(c, tr, Afterwards(c, Emergency.TryLock).(
            lower := Released(Emergency.TryLock, Dawn(c)).(books := Emergency.Books(now, 0, 0)), log := TwoDangers(c)));
  }

  lemma SecondDanger(c: Config, i: nat) returns (tr: seq<State>)
    requires ValidConfig(c) && PositiveStart(c) && CanBoard(c, i) && c.pipe.danger
    ensures Run(c, tr)
    ensures tr[|tr| - 1].es == Loop(c) && tr[|tr| - 1].lowerSeen == [1, 2]
    ensures RunningSince(c, Loop(c)[..2], 1) == 0.0
  {
    tr := DetectsAgain(c, i);
    LoopShows(c);
    LoopRuns(c.realStart, Late(c));
    assert Loop(c)[..2] == Loop(c);
  }

  // ----- exactly when emergencies last

  lemma AnyTimeAmounts(c: Config, es: seq<Clock.Event>, m: nat)
    requires ValidConfig(c) && Clock.History(c.realStart, es) && m <= |es| && c.duration == 0
    ensures Amounts(c, es, m)
  {
    ClockTheorems.SumsGrow(c.realStart, es, m);
    ClockTheorems.SimulatedGrows(c.day, 0.0, RunningSince(c, es, m));
  }

  lemma NoTimeFallsShort(c: Config, es: seq<Clock.Event>, m: nat)
    requires m <= |es| && RunningSince(c, es, m) == 0.0 && c.duration > 0
    ensures !Amounts(c, es, m)
  {
  }

  /** Every tenure of the lock lasts the danger duration in running time, in every run, exactly when
      danger detection is disabled, or nobody can board, or no emergency needs to last. */
  lemma TenuresLastIff(c: Config)
    requires ValidConfig(c) && PositiveStart(c)
    ensures TenuresLast(c) <==> Harmless(c) || c.duration == 0
  {
    if Harmless(c) || c.duration == 0 {
      forall tr: seq<State> | Run(c, tr) && Releasing(tr[|tr| - 1].e) ensures LongTenure(c, tr[|tr| - 1]) {
        ReleasingMeansHarm(c, tr);
        RunOnTime(c, tr, |tr| - 1);
        AnyTimeAmounts(c, tr[|tr| - 1].es, tr[|tr| - 1].since);
      }
    } else {
      var i := Boarder(c);
      var tr := ShortTenure(c, i);
      NoTimeFallsShort(c, tr[|tr| - 1].es, tr[|tr| - 1].since);
      assert !LongTenure(c, tr[|tr| - 1]);
    }
  }

  lemma ReleasingMeansHarm(c: Config, tr: seq<State>)
    requires ValidConfig(c) && PositiveStart(c) && Run(c, tr) && Releasing(tr[|tr| - 1].e)
    ensures !Harmless(c)
  {
    InvariantHolds(c, tr, |tr| - 1);
    if Harmless(c) { NoDangerNoStop(c, tr, |tr| - 1); }
  }

  lemma StepSeesNothing(c: Config, s: State, step: Step)
    requires ValidConfig(c) && Harmless(c) && Enabled(c, s, step) && Calm(c, s)
    ensures Apply(c, s, step).lowerSeen == s.lowerSeen && Apply(c, s, step).upperSeen == s.upperSeen
  {
  }

  lemma NextSeesNothing(c: Config, tr: seq<State>, n: nat)
    requires ValidConfig(c) && Harmless(c) && Run(c, tr) && 0 < n < |tr|
    ensures tr[n].lowerSeen == tr[n - 1].lowerSeen && tr[n].upperSeen == tr[n - 1].upperSeen
  {
    RunCalm(c, tr, n - 1);
    var step := StepAt(c, tr, n - 1);
    StepSeesNothing(c, tr[n - 1], step);
  }

  lemma {:induction false} HarmlessSeesNothing(c: Config, tr: seq<State>, n: nat)
    requires ValidConfig(c) && Harmless(c) && Run(c, tr) && n < |tr|
    ensures tr[n].lowerSeen == [] && tr[n].upperSeen == []
  {
    if n > 0 {
      HarmlessSeesNothing(c, tr, n - 1);
      NextSeesNothing(c, tr, n);
    }
  }

  /** Any two dangers detected by one worker are the danger duration apart in running time, in
      every run, under exactly the same condition. */
  lemma DangersLastIff(c: Config)
    requires ValidConfig(c) && PositiveStart(c)
    ensures DangersLast(c) <==> Harmless(c) || c.duration == 0
  {
    if Harmless(c) || c.duration == 0 {
      forall tr: seq<State> | Run(c, tr)
        ensures AllFarApart(c, tr[|tr| - 1], Emergency.Lower) && AllFarApart(c, tr[|tr| - 1], Emergency.Upper)
      {
        if c.duration == 0 {
          NoDurationFarApart(c, tr, Emergency.Lower);
          NoDurationFarApart(c, tr, Emergency.Upper);
        } else {
          HarmlessSeesNothing(c, tr, |tr| - 1);
        }
      }
    } else {
      var i := Boarder(c);
      var tr := SecondDanger(c, i);
      NoTimeFallsShort(c, Loop(c)[..2], 1);
      assert !FarApart(c, tr[|tr| - 1], Emergency.Lower, 0, 1);
    }
  }

  lemma NoDurationFarApart(c: Config, tr: seq<State>, r: Emergency.Role)
    requires ValidConfig(c) && PositiveStart(c) && Run(c, tr) && c.duration == 0
    ensures AllFarApart(c, tr[|tr| - 1], r)
  {
    RunNoted(c, tr, |tr| - 1, r);
    RunOnTime(c, tr, |tr| - 1);
    var s := tr[|tr| - 1];
    forall i, j | 0 <= i < j < |Seen(s, r)| ensures FarApart(c, s, r, i, j) {
      PairFarApart(c, s, r, i, j);
    }
  }

  lemma PairFarApart(c: Config, s: State, r: Emergency.Role, i: nat, j: nat)
    requires ValidConfig(c) && Noted(c, s, r) && Clock.History(c.realStart, s.es) && c.duration == 0
    requires i < j < |Seen(s, r)|
    ensures FarApart(c, s, r, i, j)
  {
    ClockTheorems.Prefixes(c.realStart, s.es, Seen(s, r)[j]);
    AnyTimeAmounts(c, s.es[..Seen(s, r)[j]], Seen(s, r)[i]);
  }
}
