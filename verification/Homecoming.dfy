/**
 Nobody is left behind: with danger detection disabled and every party fitting the station, from
 every reachable state all tourists can ride to the end of their ride and go home.
 */
module Homecoming {
  import opened Constants
  import opened Pipeline
  import opened Boarding
  import opened BoardingSteps
  import opened PipelineTheorems
  import opened Progress

  // ----- how far everyone is from home

  /** Operations a tourist has before it, if it sets out on no other ride. */
  function Rank(at: Place): nat {
    match at
    case Gone => 0
    case Start => 1
    case Descend => 1
    case ExitOut => 2
    case Announce => 3
    case ExitGate => 4
    case Ride => 5
    case PlatformOut => 6
    case Await => 7
    case Request => 8
    case StopWait => 9
    case StopRegister => 10
    case StopCheck => 11
    case StationOut => 12
    case CountOut => 13
    case PlatformGate => 14
    case FrightOut => 1
    case FrightCount => 2
    case Choose => 15
    case EntryOut => 16
    case CountIn => 17
    case StationDoor => 18
    case EntryGate => 19
  }

  function Ranks(ts: seq<Tourist>): nat {
    if ts == [] then 0 else Rank(ts[0].at) + Ranks(ts[1..])
  }

  lemma {:induction false} RanksUpdate(ts: seq<Tourist>, i: nat, t: Tourist)
    requires i < |ts|
    ensures Ranks(ts[i := t]) == Ranks(ts) - Rank(ts[i].at) + Rank(t.at)
  {
    if i == 0 {
      assert ts[i := t][1..] == ts[1..];
    } else {
      assert ts[i := t][1..] == ts[1..][i - 1 := t];
      RanksUpdate(ts[1..], i - 1, t);
    }
  }

  function Stage(pc: LowerPc): nat {
    match pc
    case PutBack(_) => 4
    case Loop => 3
    case InHand(_) => 2
    case Departing(_) => 1
    case Confirming(_, _, _) => 0
  }

  /** What the lower worker has before it: requests to confirm, parties to buffer. */
  function ToLoad(s: State): int {
    30 * (|s.sent| - |s.confirmed|) - 5 * |s.low.pending| + Stage(s.low.pc)
  }

  function ToCount(s: State): nat {
    2 * |s.arrivals| + (if s.up.hand.Some? then 1 else 0)
  }

  function Distance(s: State): int {
    100 * Ranks(s.ts) + ToLoad(s) + ToCount(s)
  }

  /** At most four parties are buffered, and some request is unconfirmed when any is. */
  lemma BufferIsShort(s: State)
    requires PlatformOk(s)
    ensures |s.low.pending| <= SlotSum(s.low.pending) <= CHAIR_CAPACITY
    ensures s.low.pending != [] ==> |s.confirmed| < |s.sent|
    ensures |s.confirmed| <= |s.sent|
  {
    Placement(s);
    assert FitsChair(s.low.pending);
    SlotSumBounds(s.low.pending);
  }

  lemma DistanceIsNatural(s: State)
    requires PlatformOk(s)
    ensures Distance(s) >= 0
  {
    BufferIsShort(s);
  }

  // ----- every step homeward shortens it

  lemma MoveShortens(c: Config, s: State, i: nat, to: Place)
    requires Enabled(c, s, Move(i, to)) && Homeward(s, Move(i, to))
    ensures Distance(ApplyMove(s, i, to)) < Distance(s)
  {
    RanksUpdate(s.ts, i, s.ts[i].(at := to));
    RankFalls(s.ts[i].at, to);
  }

  lemma RankFalls(at: Place, to: Place)
    requires Follows(at, to) && to != Start && to != EntryGate
    ensures Rank(to) < Rank(at)
  {
  }

  lemma ReadShortens(c: Config, s: State, step: Step)
    requires Enabled(c, s, step) && (step.ReadStop? || step.PassClear?) && Homeward(s, step)
    ensures Distance(Apply(c, s, step)) < Distance(s)
  {
    RanksUpdate(s.ts, step.i, s.ts[step.i].(at := Request));
  }

  lemma MessageShortens(c: Config, s: State, step: Step)
    requires Enabled(c, s, step) && (step.SendRequest? || step.TakeConfirmation? || step.SendArrival?)
    ensures Distance(Apply(c, s, step)) < Distance(s)
  {
    RanksUpdate(s.ts, step.i, Apply(c, s, step).ts[step.i]);
  }

  lemma DecideShortens(s: State)
    requires PlatformOk(s) && s.low.pc.InHand?
    ensures Distance(ApplyDecide(s, false)) < Distance(s)
  {
    Placement(s);
    BufferIsShort(s);
    if FitsOn(s.low, s.low.pc.req) {
      assert Hand(s.low) == [s.low.pc.req];
      assert s.low.pc.req.slots >= 1;
    } else {
      NoRoomMeansLoaded(s);
    }
  }

  lemma ConfirmShortens(s: State)
    requires PlatformOk(s) && s.low.pc.Confirming?
    ensures Distance(ApplyConfirm(s)) < Distance(s)
  {
    BufferIsShort(s);
  }

  lemma WorkerShortens(c: Config, s: State, step: Step)
    requires Enabled(c, s, step)
    requires step.Receive? || step.Interrupt? || step.Requeue? || step.Depart? || step.ReceiveArrival?
             || step.CountArrival?
    ensures Distance(Apply(c, s, step)) < Distance(s)
  {
  }

  lemma HomewardShortens(c: Config, s: State, step: Step)
    requires PlatformOk(s) && Enabled(c, s, step) && Homeward(s, step)
    ensures Distance(Apply(c, s, step)) < Distance(s)
  {
    match step
    case Move(i, to) => MoveShortens(c, s, i, to);
    case ReadStop(_, _) => ReadShortens(c, s, step);
    case PassClear(_) => ReadShortens(c, s, step);
    case SendRequest(_) => MessageShortens(c, s, step);
    case TakeConfirmation(_, _) => MessageShortens(c, s, step);
    case SendArrival(_) => MessageShortens(c, s, step);
    case Decide(_) => DecideShortens(s);
    case Confirm => ConfirmShortens(s);
    case _ => WorkerShortens(c, s, step);
  }

  // ----- and reuses no id

  lemma DepartAddsOne(s: State, now: int)
    requires s.low.pc.Departing?
    ensures forall k | k in Outstanding(ApplyDepart(s, now)) :: k in Outstanding(s) || k == |s.chairs|
  {
    var s' := ApplyDepart(s, now);
    forall k | k in Outstanding(s') ensures k in Outstanding(s) || k == |s.chairs| {
      if k < |s.chairs| { assert s'.chairs[k] == s.chairs[k]; }
    }
  }

  lemma DepartAlone(s: State, now: int)
    requires s.low.pc.Departing? && Outstanding(s) == {}
    ensures DistinctIds(ApplyDepart(s, now))
  {
    DepartAddsOne(s, now);
  }

  lemma OthersKeepIds(c: Config, s: State, step: Step)
    requires Enabled(c, s, step) && DistinctIds(s) && !step.Depart?
    ensures DistinctIds(Apply(c, s, step))
  {
    var s' := Apply(c, s, step);
    forall k | k in Outstanding(s') ensures k in Outstanding(s) {
    }
  }

  lemma HomewardKeepsIds(c: Config, s: State, step: Step)
    requires Enabled(c, s, step) && DistinctIds(s) && Homeward(s, step)
    ensures DistinctIds(Apply(c, s, step))
  {
    if step.Depart? { DepartAlone(s, step.now); } else { OthersKeepIds(c, s, step); }
  }

  // ----- everyone goes home

  /** A run that goes on from another until nobody is left. */
  ghost predicate TakesHome(c: Config, tr: seq<State>, tr': seq<State>) {
    && Run(c, tr') && |tr| <= |tr'| && tr'[..|tr|] == tr
    && !SomeonePresent(tr'[|tr'| - 1])
  }

  lemma OneStepHome(c: Config, tr: seq<State>) returns (tr': seq<State>)
    requires ValidConfig(c) && !c.danger && EveryoneFits(c)
    requires Run(c, tr) && DistinctIds(tr[|tr| - 1]) && SomeonePresent(tr[|tr| - 1])
    ensures Run(c, tr') && DistinctIds(tr'[|tr'| - 1]) && |tr'| == |tr| + 1 && tr'[..|tr|] == tr
    ensures 0 <= Distance(tr'[|tr'| - 1]) < Distance(tr[|tr| - 1])
  {
    var s := tr[|tr| - 1];
    RunInv(c, tr, |tr| - 1);
    FittingPartiesLive(c, tr);
    var step :| Onward(c, s, step);
    var s' := Apply(c, s, step);
    HomewardShortens(c, s, step);
    HomewardKeepsIds(c, s, step);
    ExtendRun(c, tr, step, s');
    tr' := tr + [s'];
    RunInv(c, tr', |tr|);
    DistanceIsNatural(s');
  }

  lemma {:induction false} GoHome(c: Config, tr: seq<State>) returns (tr': seq<State>)
    requires ValidConfig(c) && !c.danger && EveryoneFits(c)
    requires Run(c, tr) && DistinctIds(tr[|tr| - 1]) && 0 <= Distance(tr[|tr| - 1])
    ensures TakesHome(c, tr, tr')
    decreases Distance(tr[|tr| - 1])
  {
    if SomeonePresent(tr[|tr| - 1]) {
      var next := OneStepHome(c, tr);
      tr' := GoHome(c, next);
      assert tr'[..|tr|] == next[..|tr|];
    } else {
      tr' := tr;
      assert tr[..|tr|] == tr;
    }
  }

  ghost predicate EveryoneCanGoHome(c: Config) {
    forall tr | Run(c, tr) && DistinctIds(tr[|tr| - 1]) :: exists tr' :: TakesHome(c, tr, tr')
  }

  lemma StuckStep(c: Config, s: State, s': State)
    requires !Live(c, s) && Next(c, s, s')
    ensures s' == s
  {
    var step :| Enabled(c, s, step) && s' == Apply(c, s, step);
    assert !Changes(c, s, step);
  }

  lemma {:induction false} StuckForEver(c: Config, tr: seq<State>, n: nat, m: nat)
    requires Run(c, tr) && n <= m < |tr| && !Live(c, tr[n])
    ensures tr[m] == tr[n]
    decreases m
  {
    if m > n {
      StuckForEver(c, tr, n, m - 1);
      assert StepsAt(c, tr, m - 1);
      StuckStep(c, tr[m - 1], tr[m]);
    }
  }

  /** With danger disabled, every reachable state has a continuation after which all tourists have
      gone home, if and only if every party fits the lower station. */
  lemma EveryoneCanGoHomeIff(c: Config)
    requires ValidConfig(c) && !c.danger
    ensures EveryoneCanGoHome(c) <==> EveryoneFits(c)
  {
    if EveryoneFits(c) {
      forall tr | Run(c, tr) && DistinctIds(tr[|tr| - 1]) ensures exists tr' :: TakesHome(c, tr, tr') {
        RunInv(c, tr, |tr| - 1);
        DistanceIsNatural(tr[|tr| - 1]);
        var tr' := GoHome(c, tr);
        assert TakesHome(c, tr, tr');
      }
    } else {
      var b: nat :| b < |c.parties| && c.parties[b].stationSlots > c.capacity;
      var tr := TooLargeDeadlocks(c, b);
      forall tr' ensures !TakesHome(c, tr, tr') {
        if TakesHome(c, tr, tr') {
          assert tr'[|tr| - 1] == tr'[..|tr|][|tr| - 1];
          StuckForEver(c, tr', |tr| - 1, |tr'| - 1);
        }
      }
    }
  }
}
