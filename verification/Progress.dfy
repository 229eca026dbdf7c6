/**
 Deadlock freedom with danger detection disabled: while a tourist is present some step changes
 the state, exactly when no party needs more of the lower station than its whole capacity.
 */
module Progress {
  import opened Constants
  import opened Pipeline
  import opened Gates
  import opened Boarding
  import opened Passengers
  import opened ArrivalStep
  import opened PipelineTheorems

  ghost predicate Changes(c: Config, s: State, step: Step) {
    Enabled(c, s, step) && Apply(c, s, step) != s
  }

  ghost predicate Live(c: Config, s: State) {
    exists step :: Changes(c, s, step)
  }

  /** A step that takes tourists home: nobody sets out on another ride, no emergency is seen, and a
      chair leaves only when none is under way. */
  ghost predicate Homeward(s: State, step: Step) {
    match step
    case Move(_, to) => to != Start && to != EntryGate
    case ReadStop(_, emergency) => !emergency
    case Decide(emergency) => !emergency
    case Depart(_) => Outstanding(s) == {}
    case _ => true
  }

  ghost predicate Onward(c: Config, s: State, step: Step) {
    Changes(c, s, step) && Homeward(s, step)
  }

  ghost predicate GoesOn(c: Config, s: State) {
    exists step :: Onward(c, s, step)
  }

  ghost predicate SomeonePresent(s: State) {
    exists i :: 0 <= i < |s.ts| && s.ts[i].at != Gone
  }

  ghost predicate DeadlockFree(c: Config) {
    forall tr | Run(c, tr) && SomeonePresent(tr[|tr| - 1]) :: Live(c, tr[|tr| - 1])
  }

  ghost predicate EveryoneFits(c: Config) {
    forall i | 0 <= i < |c.parties| :: c.parties[i].stationSlots <= c.capacity
  }

  // ----- nobody waits for an emergency to clear

  ghost predicate Calm(s: State) {
    forall i | 0 <= i < |s.ts| :: s.ts[i].at != StopRegister && s.ts[i].at != StopWait
  }

  lemma StepKeepsCalm(c: Config, s: State, step: Step)
    requires !c.danger && Calm(s) && Enabled(c, s, step)
    ensures Calm(Apply(c, s, step))
  {
  }

  lemma {:induction false} RunCalm(c: Config, tr: seq<State>, n: nat)
    requires Run(c, tr) && !c.danger && n < |tr|
    ensures Calm(tr[n])
  {
    if n > 0 {
      RunCalm(c, tr, n - 1);
      assert StepsAt(c, tr, n - 1);
      var step :| Enabled(c, tr[n - 1], step) && tr[n] == Apply(c, tr[n - 1], step);
      StepKeepsCalm(c, tr[n - 1], step);
    }
  }

  // ----- who can move

  ghost predicate Good(c: Config, s: State) {
    ValidConfig(c) && EveryoneFits(c) && Inv(c, s) && Calm(s)
  }

  lemma CanMove(c: Config, s: State, i: nat, to: Place)
    requires i < |s.ts| && Follows(s.ts[i].at, to) && to != Start && to != EntryGate
    requires OperationAt(s.ts[i]).Wait? ==> OperationAt(s.ts[i]).n <= Get(s.free, OperationAt(s.ts[i]).gate)
    ensures GoesOn(c, s)
  {
    var t := ApplyMove(s, i, to);
    assert t.ts[i].at == to;
    assert Onward(c, s, Move(i, to));
  }

  /** A tourist that is not waiting for a permit or a confirmation can go on. */
  lemma WalkerLive(c: Config, s: State, i: nat)
    requires Calm(s) && i < |s.ts|
    requires s.ts[i].at !in {EntryGate, StationDoor, PlatformGate, ExitGate, Await, Gone}
    ensures GoesOn(c, s)
  {
    match s.ts[i].at
    case Start => CanMove(c, s, i, Gone);
    case CountIn => CanMove(c, s, i, EntryOut);
    case EntryOut => CanMove(c, s, i, Choose);
    case Choose => CanMove(c, s, i, PlatformGate);
    case FrightCount => CanMove(c, s, i, FrightOut);
    case FrightOut => CanMove(c, s, i, Gone);
    case CountOut => CanMove(c, s, i, StationOut);
    case StationOut => CanMove(c, s, i, StopCheck);
    case PlatformOut => CanMove(c, s, i, Ride);
    case Ride => CanMove(c, s, i, ExitGate);
    case ExitOut => CanMove(c, s, i, Descend);
    case Descend => CanMove(c, s, i, Gone);
    case StopCheck =>
      assert At(s, i, Request).ts[i].at == Request;
      assert Onward(c, s, ReadStop(i, false));
    case Request =>
      assert ApplySendRequest(s, i).ts[i].at == Await;
      assert Onward(c, s, SendRequest(i));
    case Announce =>
      assert ApplySendArrival(s, i).ts[i].at == ExitOut;
      assert Onward(c, s, SendArrival(i));
  }

  /** A gate that cannot admit someone it could admit when free is held by somebody. */
  lemma GateTaken(c: Config, s: State, g: Gate, n: int)
    requires Balanced(c, s) && Get(s.free, g) < n <= Total(c, g)
    ensures Held(Holds(g), s.ts) > 0
  {
  }

  lemma ExitHolderLive(c: Config, s: State, j: nat)
    requires Calm(s) && j < |s.ts| && Weight(Holds(Exit), s.ts[j]) > 0
    ensures GoesOn(c, s)
  {
    WalkerLive(c, s, j);
  }

  lemma ExitTakenLive(c: Config, s: State)
    requires Calm(s) && Balanced(c, s) && s.free.exit < 1
    ensures GoesOn(c, s)
  {
    GateTaken(c, s, Exit, 1);
    var j := HeldBySomeone(Holds(Exit), s.ts);
    ExitHolderLive(c, s, j);
  }

  lemma ExitLive(c: Config, s: State, i: nat)
    requires Calm(s) && Balanced(c, s) && i < |s.ts| && s.ts[i].at == ExitGate
    ensures GoesOn(c, s)
  {
    if s.free.exit >= 1 {
      CanMove(c, s, i, Announce);
    } else {
      ExitTakenLive(c, s);
    }
  }

  // ----- requests on their way

  /** A confirmation on its way is the first, indeed the only one, for a tourist that awaits it. */
  lemma ConfirmationIsFirst(s: State, n: nat)
    requires PassengersOk(s) && n < |s.boarding|
    ensures s.boarding[n].tourist < |s.ts| && s.ts[s.boarding[n].tourist].at == Await
    ensures forall m | 0 <= m < n :: s.boarding[m].tourist != s.boarding[n].tourist
  {
    var b := s.boarding[n];
    assert ConfirmationOk(s, b);
    assert s.ts[b.tourist].trip == Waiting(b.serial) && PlaceMatchesTrip(s.ts[b.tourist]);
    forall m | 0 <= m < n ensures s.boarding[m].tourist != b.tourist {
      assert ConfirmationOk(s, s.boarding[m]);
      assert s.boarding[m].serial != b.serial;
    }
  }

  lemma ConfirmedLive(c: Config, s: State, q: nat)
    requires Good(c, s) && q < |s.sent| && s.phase[q].Confirmed?
    ensures GoesOn(c, s)
  {
    assert InBoarding(s, q);
    var n :| 0 <= n < |s.boarding| && s.boarding[n].serial == q;
    ConfirmationIsFirst(s, n);
    TakingLive(c, s, s.boarding[n].tourist, n);
  }

  lemma TakingLive(c: Config, s: State, i: nat, n: nat)
    requires Enabled(c, s, TakeConfirmation(i, n))
    ensures GoesOn(c, s)
  {
    assert ApplyTakeConfirmation(s, i, n).ts[i].at == PlatformOut;
    assert Onward(c, s, TakeConfirmation(i, n));
  }

  lemma RidingLive(c: Config, s: State, q: nat)
    requires Good(c, s) && q < |s.sent| && s.phase[q].Riding?
    ensures GoesOn(c, s)
  {
    var i := s.sent[q].tourist;
    assert PlaceMatchesTrip(s.ts[i]);
    if s.ts[i].at == ExitGate { ExitLive(c, s, i); } else { WalkerLive(c, s, i); }
  }

  lemma AnnouncedLive(c: Config, s: State, q: nat)
    requires Good(c, s) && q < |s.sent| && s.phase[q].Announced?
    ensures GoesOn(c, s)
  {
    assert InUncounted(s, q);
    UpperLive(c, s);
  }

  lemma UpperLive(c: Config, s: State)
    requires |Uncounted(s)| > 0
    ensures GoesOn(c, s)
  {
    if s.up.hand.Some? {
      assert ApplyCountArrival(s).up.hand.None?;
      assert Onward(c, s, CountArrival);
    } else {
      assert Apply(c, s, ReceiveArrival).up.hand.Some?;
      assert Onward(c, s, ReceiveArrival);
    }
  }

  /** A chair that is to leave can, or the chairs under way have passengers still moving. */
  lemma DepartingLive(c: Config, s: State)
    requires Good(c, s) && s.low.pc.Departing?
    ensures GoesOn(c, s)
  {
    if Outstanding(s) == {} {
      PermitsConserved(s);
      assert Onward(c, s, Depart(0));
    } else {
      var k :| k in Outstanding(s);
      CompleteMeansArrived(s, k);
      StretchConfirmed(s, k);
      var q :| s.chairs[k].first <= q < s.chairs[k].first + s.chairs[k].size && !s.phase[q].Counted?;
      match s.phase[q]
      case Confirmed(_) => ConfirmedLive(c, s, q);
      case Riding(_) => RidingLive(c, s, q);
      case Announced(_) => AnnouncedLive(c, s, q);
    }
  }

  /** The worker at its loop has a request to take or a chair to send off. */
  lemma LoopLive(c: Config, s: State)
    requires Ordered(s) && s.low.pc.Loop? && |s.confirmed| < |s.sent|
    ensures GoesOn(c, s)
  {
    if s.low.pending != [] {
      assert Onward(c, s, Interrupt);
    } else {
      assert |Backlog(s)| == |OfType(s.queue, 1)| + |OfType(s.queue, 2)|;
      NoneOfType(s.queue, 1);
      NoneOfType(s.queue, 2);
      assert Apply(c, s, Receive).low.pc.InHand?;
      assert Onward(c, s, Receive);
    }
  }

  lemma InHandLive(c: Config, s: State)
    requires s.low.pc.InHand?
    ensures GoesOn(c, s)
  {
    assert !ApplyDecide(s, false).low.pc.InHand?;
    assert Onward(c, s, Decide(false));
  }

  lemma PutBackLive(c: Config, s: State)
    requires s.low.pc.PutBack?
    ensures GoesOn(c, s)
  {
    assert Apply(c, s, Requeue).low.pc.Loop?;
    assert Onward(c, s, Requeue);
  }

  lemma ConfirmingLive(c: Config, s: State)
    requires Ordered(s) && s.low.pc.Confirming?
    ensures GoesOn(c, s)
  {
    assert |ApplyConfirm(s).boarding| == |s.boarding| + 1;
    assert Onward(c, s, Confirm);
  }

  lemma RequestedLive(c: Config, s: State)
    requires Good(c, s) && |s.confirmed| < |s.sent|
    ensures GoesOn(c, s)
  {
    if s.low.pc.InHand? {
      InHandLive(c, s);
    } else if s.low.pc.PutBack? {
      PutBackLive(c, s);
    } else if s.low.pc.Departing? {
      DepartingLive(c, s);
    } else if s.low.pc.Confirming? {
      ConfirmingLive(c, s);
    } else {
      LoopLive(c, s);
    }
  }

  lemma AwaitLive(c: Config, s: State, i: nat)
    requires Good(c, s) && i < |s.ts| && s.ts[i].at == Await
    ensures GoesOn(c, s)
  {
    assert PlaceMatchesTrip(s.ts[i]) && TripOk(s, i);
    var q := s.ts[i].trip.serial;
    if s.phase[q].Confirmed? { ConfirmedLive(c, s, q); } else { RequestedLive(c, s); }
  }

  // ----- gates, from the exit back to the entry

  lemma PlatformHolderPlace(t: Tourist)
    requires Weight(Holds(Platform), t) > 0
    ensures t.at in {CountOut, StationOut, StopCheck, StopRegister, StopWait, Request, Await, PlatformOut}
  {
  }

  lemma PlatformHolderLive(c: Config, s: State, j: nat)
    requires Good(c, s) && j < |s.ts| && Weight(Holds(Platform), s.ts[j]) > 0
    ensures GoesOn(c, s)
  {
    PlatformHolderPlace(s.ts[j]);
    if s.ts[j].at == Await { AwaitLive(c, s, j); } else { WalkerLive(c, s, j); }
  }

  lemma PlatformLive(c: Config, s: State, i: nat)
    requires Good(c, s) && i < |s.ts| && s.ts[i].at == PlatformGate
    ensures GoesOn(c, s)
  {
    if s.free.platform >= 1 {
      CanMove(c, s, i, CountOut);
    } else {
      GateTaken(c, s, Platform, 1);
      var j := HeldBySomeone(Holds(Platform), s.ts);
      PlatformHolderLive(c, s, j);
    }
  }

  lemma StationLive(c: Config, s: State, i: nat)
    requires Good(c, s) && i < |s.ts| && s.ts[i].at == StationDoor
    ensures GoesOn(c, s)
  {
    if s.free.station >= s.ts[i].party.stationSlots {
      CanMove(c, s, i, CountIn);
    } else {
      assert s.ts[i].party == c.parties[i];
      GateTaken(c, s, Station, s.ts[i].party.stationSlots);
      var j := HeldBySomeone(Holds(Station), s.ts);
      if s.ts[j].at == PlatformGate { PlatformLive(c, s, j); } else { WalkerLive(c, s, j); }
    }
  }

  lemma EntryLive(c: Config, s: State, i: nat)
    requires Good(c, s) && i < |s.ts| && s.ts[i].at == EntryGate
    ensures GoesOn(c, s)
  {
    if s.free.entry >= GateOf(s.ts[i].party) {
      CanMove(c, s, i, StationDoor);
    } else {
      GateTaken(c, s, Entry, GateOf(s.ts[i].party));
      var j := HeldBySomeone(Holds(Entry), s.ts);
      if s.ts[j].at == StationDoor { StationLive(c, s, j); } else { WalkerLive(c, s, j); }
    }
  }

  /** Whoever is present, something can change. */
  lemma PresentLive(c: Config, s: State)
    requires Good(c, s) && SomeonePresent(s)
    ensures GoesOn(c, s)
  {
    var i: nat :| i < |s.ts| && s.ts[i].at != Gone;
    if s.ts[i].at == EntryGate {
      EntryLive(c, s, i);
    } else if s.ts[i].at == StationDoor {
      StationLive(c, s, i);
    } else if s.ts[i].at == PlatformGate {
      PlatformLive(c, s, i);
    } else if s.ts[i].at == ExitGate {
      ExitLive(c, s, i);
    } else if s.ts[i].at == Await {
      AwaitLive(c, s, i);
    } else {
      WalkerLive(c, s, i);
    }
  }

  // ----- a party larger than the station

  function WithPlaces(c: Config, b: nat, n: nat, at: Place, entry: int): State {
    Init(c).(ts := seq(|c.parties|, i requires 0 <= i < |c.parties| =>
                     Tourist(c.parties[i], if i == b then at else if i < n then Gone else Start, NoTrip)),
             free := Init(c).free.(entry := entry))
  }

  lemma ExtendRun(c: Config, tr: seq<State>, step: Step, s': State)
    requires Run(c, tr) && DistinctIds(tr[|tr| - 1])
    requires Enabled(c, tr[|tr| - 1], step) && s' == Apply(c, tr[|tr| - 1], step)
    ensures Run(c, tr + [s'])
  {
    var tr' := tr + [s'];
    forall n | 0 <= n < |tr'| - 1 ensures StepsAt(c, tr', n) {
      if n < |tr| - 1 {
        assert StepsAt(c, tr, n);
      }
    }
  }

  /** All tourists but one may leave before their first ride. */
  lemma {:induction false} OthersLeave(c: Config, b: nat, n: nat) returns (tr: seq<State>)
    requires ValidConfig(c) && b < |c.parties| && n <= |c.parties|
    ensures Run(c, tr) && tr[|tr| - 1] == WithPlaces(c, b, n, Start, ENTRY_GATES)
  {
    if n == 0 {
      tr := [Init(c)];
      assert WithPlaces(c, b, 0, Start, ENTRY_GATES).ts == Init(c).ts;
    } else {
      tr := OthersLeave(c, b, n - 1);
      var s, s' := tr[|tr| - 1], WithPlaces(c, b, n, Start, ENTRY_GATES);
      if n - 1 == b {
        assert s.ts == s'.ts;
      } else {
        assert s'.ts == s.ts[n - 1 := s.ts[n - 1].(at := Gone)];
        ExtendRun(c, tr, Move(n - 1, Gone), s');
        tr := tr + [s'];
      }
    }
  }

  /** One tourist at the station door, the others gone, and not enough room for it. */
  lemma AloneAtTheDoor(c: Config, b: nat, entry: int)
    requires b < |c.parties| && c.parties[b].stationSlots > c.capacity
    ensures SomeonePresent(WithPlaces(c, b, |c.parties|, StationDoor, entry))
    ensures !Live(c, WithPlaces(c, b, |c.parties|, StationDoor, entry))
  {
    var s := WithPlaces(c, b, |c.parties|, StationDoor, entry);
    assert s.ts[b].at != Gone;
    forall step ensures !Enabled(c, s, step) {
      assert NextMessage(s.queue) == |s.queue|;
      assert step.Move? && step.i < |s.ts| ==> s.ts[step.i].at in {StationDoor, Gone};
    }
  }

  lemma LastComesIn(c: Config, b: nat) returns (tr: seq<State>)
    requires ValidConfig(c) && b < |c.parties|
    ensures Run(c, tr) && tr[|tr| - 1] == WithPlaces(c, b, |c.parties|, EntryGate, ENTRY_GATES)
  {
    tr := OthersLeave(c, b, |c.parties|);
    var s, s' := tr[|tr| - 1], WithPlaces(c, b, |c.parties|, EntryGate, ENTRY_GATES);
    assert s'.ts == s.ts[b := s.ts[b].(at := EntryGate)];
    ExtendRun(c, tr, Move(b, EntryGate), s');
    tr := tr + [s'];
  }

  lemma ToTheDoor(c: Config, b: nat, s: State, s': State)
    requires b < |c.parties|
    requires s == WithPlaces(c, b, |c.parties|, EntryGate, ENTRY_GATES)
    requires s' == WithPlaces(c, b, |c.parties|, StationDoor, ENTRY_GATES - GateOf(c.parties[b]))
    ensures DistinctIds(s) && Enabled(c, s, Move(b, StationDoor)) && s' == Apply(c, s, Move(b, StationDoor))
  {
    assert s'.ts == s.ts[b := s.ts[b].(at := StationDoor)];
  }

  /** A party that needs more than the whole station can be left alone, waiting for ever. */
  lemma TooLargeDeadlocks(c: Config, b: nat) returns (tr: seq<State>)
    requires ValidConfig(c) && b < |c.parties| && c.parties[b].stationSlots > c.capacity
    ensures Run(c, tr) && SomeonePresent(tr[|tr| - 1]) && !Live(c, tr[|tr| - 1])
    ensures DistinctIds(tr[|tr| - 1])
  {
    tr := LastComesIn(c, b);
    var entry := ENTRY_GATES - GateOf(c.parties[b]);
    var s := WithPlaces(c, b, |c.parties|, StationDoor, entry);
    ToTheDoor(c, b, tr[|tr| - 1], s);
    ExtendRun(c, tr, Move(b, StationDoor), s);
    tr := tr + [s];
    AloneAtTheDoor(c, b, entry);
  }

  lemma RunGood(c: Config, tr: seq<State>)
    requires ValidConfig(c) && !c.danger && EveryoneFits(c) && Run(c, tr)
    ensures Good(c, tr[|tr| - 1])
  {
    var s := tr[|tr| - 1];
    assert Inv(c, s) by { RunInv(c, tr, |tr| - 1); }
    assert Calm(s) by { RunCalm(c, tr, |tr| - 1); }
  }

  lemma OnwardIsLive(c: Config, s: State)
    requires GoesOn(c, s)
    ensures Live(c, s)
  {
    var step :| Onward(c, s, step);
    assert Changes(c, s, step);
  }

  lemma FittingPartiesLive(c: Config, tr: seq<State>)
    requires ValidConfig(c) && !c.danger && EveryoneFits(c)
    requires Run(c, tr) && SomeonePresent(tr[|tr| - 1])
    ensures GoesOn(c, tr[|tr| - 1]) && Live(c, tr[|tr| - 1])
  {
    RunGood(c, tr);
    PresentLive(c, tr[|tr| - 1]);
    OnwardIsLive(c, tr[|tr| - 1]);
  }

  /** With danger disabled, the ropeway cannot deadlock if and only if every party fits the
      lower station. */
  lemma DeadlockFreeIffEveryoneFits(c: Config)
    requires ValidConfig(c) && !c.danger
    ensures DeadlockFree(c) <==> EveryoneFits(c)
  {
    if EveryoneFits(c) {
      forall tr | Run(c, tr) && SomeonePresent(tr[|tr| - 1]) ensures Live(c, tr[|tr| - 1]) {
        FittingPartiesLive(c, tr);
      }
    } else {
      var b: nat :| b < |c.parties| && c.parties[b].stationSlots > c.capacity;
      var tr := TooLargeDeadlocks(c, b);
    }
  }

  /** Parties need at most 3 slots, so a station of capacity 3 or more never deadlocks. */
  lemma CapacityOfThree(c: Config)
    requires ValidConfig(c) && !c.danger && c.capacity >= 3
    ensures DeadlockFree(c)
  {
    DeadlockFreeIffEveryoneFits(c);
  }
}
