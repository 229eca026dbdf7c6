/** The invariant of every run of the pipeline, and what it says about chairs and parties. */
module PipelineTheorems {
  import opened Constants
  import opened ChairTracking
  import opened Pipeline
  import opened Gates
  import opened Boarding
  import opened BoardingSteps
  import opened Passengers
  import opened PassengerSteps
  import opened ArrivalStep

  ghost predicate Inv(c: Config, s: State) {
    SameParties(c, s) && Balanced(c, s) && PlatformOk(s) && PassengersOk(s)
  }

  lemma {:induction false} ChairsInSequence(s: State, j: nat, k: nat)
    requires Departures(s) && j < k < |s.chairs|
    ensures s.chairs[j].first + s.chairs[j].size <= s.chairs[k].first
    decreases k
  {
    assert ChairOk(s.sent, s.chairs, k);
    assert s.chairs[..k][k - 1] == s.chairs[k - 1];
    if j < k - 1 {
      ChairsInSequence(s, j, k - 1);
      assert ChairOk(s.sent, s.chairs, k - 1);
    }
  }

  lemma ArrivalFacts(c: Config, s: State) returns (k: nat)
    requires Inv(c, s) && s.up.hand.Some?
    ensures Arriving(s, s.up.hand.value, k) && OnlyChair(s, s.up.hand.value.serial, k)
  {
    var a := s.up.hand.value;
    assert Uncounted(s)[0] == a;
    assert AnnouncementOk(s, a);
    k := s.phase[a.serial].chair;
    forall j | 0 <= j < |s.chairs| && j != k
      ensures !(s.chairs[j].first <= a.serial < s.chairs[j].first + s.chairs[j].size)
    {
      if j < k { ChairsInSequence(s, j, k); } else { ChairsInSequence(s, k, j); }
    }
  }

  lemma ConfirmFacts(s: State)
    requires PlatformOk(s) && s.low.pc.Confirming?
    ensures AboutToConfirm(s, |s.confirmed|)
  {
    ConfirmOrdered(s);
    Placement(s);
  }

  lemma WalkPassengers(s: State, i: nat, to: Place)
    requires PassengersOk(s) && i < |s.ts| && PlaceMatchesTrip(s.ts[i].(at := to))
    ensures PassengersOk(At(s, i, to)) && PassengersOk(ApplyMove(s, i, to))
  {
    Wander(s, At(s, i, to));
    MoveLeaves(s, i, to);
    Wander(At(s, i, to), ApplyMove(s, i, to));
  }

  lemma MoveLeaves(s: State, i: nat, to: Place)
    requires i < |s.ts|
    ensures SamePassengers(At(s, i, to), ApplyMove(s, i, to)) && ApplyMove(s, i, to).ts == At(s, i, to).ts
  {
  }

  lemma WorkerPassengers(c: Config, s: State, step: Step)
    requires PassengersOk(s) && Enabled(c, s, step)
    requires step.Receive? || step.Interrupt? || step.Decide? || step.Requeue? || step.ReceiveArrival?
    ensures PassengersOk(Apply(c, s, step))
  {
    Wander(s, Apply(c, s, step));
  }

  lemma TouristPassengers(c: Config, s: State, step: Step)
    requires PassengersOk(s) && Ordered(s) && Enabled(c, s, step)
    requires step.Move? || step.ReadStop? || step.PassClear? || step.SendRequest? || step.TakeConfirmation?
             || step.SendArrival?
    ensures PassengersOk(Apply(c, s, step))
  {
    match step
    case Move(i, to) => WalkPassengers(s, i, to);
    case ReadStop(i, emergency) => WalkPassengers(s, i, Apply(c, s, step).ts[i].at);
    case PassClear(i) => WalkPassengers(s, i, Request);
    case SendRequest(i) => SendRequestPassengers(s, i);
    case TakeConfirmation(i, j) => TakeConfirmationPassengers(s, i, j);
    case SendArrival(i) => SendArrivalPassengers(s, i);
  }

  lemma StepPassengersButCounting(c: Config, s: State, step: Step)
    requires Inv(c, s) && Enabled(c, s, step) && !step.CountArrival?
    ensures PassengersOk(Apply(c, s, step))
  {
    match step
    case SendRequest(_) => TouristPassengers(c, s, step);
    case TakeConfirmation(_, _) => TouristPassengers(c, s, step);
    case SendArrival(_) => TouristPassengers(c, s, step);
    case Move(_, _) => TouristPassengers(c, s, step);
    case ReadStop(_, _) => TouristPassengers(c, s, step);
    case PassClear(_) => TouristPassengers(c, s, step);
    case Depart(now) => Placement(s); DepartPassengers(s, now);
    case Confirm => ConfirmFacts(s); ConfirmPassengers(s, |s.confirmed|);
    case _ => WorkerPassengers(c, s, step);
  }

  lemma StepPassengers(c: Config, s: State, step: Step)
    requires Inv(c, s) && DistinctIds(s) && Enabled(c, s, step)
    ensures PassengersOk(Apply(c, s, step))
  {
    if step.CountArrival? {
      var k := ArrivalFacts(c, s);
      CountArrivalPassengers(s, s.up.hand.value, k);
    } else {
      StepPassengersButCounting(c, s, step);
    }
  }

  lemma StepKeepsInv(c: Config, s: State, step: Step)
    requires ValidConfig(c) && Inv(c, s) && DistinctIds(s) && Enabled(c, s, step)
    ensures Inv(c, Apply(c, s, step))
  {
    PartiesStay(c, s, step);
    StepBalances(c, s, step);
    StepPlatform(c, s, step);
    StepPassengers(c, s, step);
  }

  lemma InitInv(c: Config)
    requires ValidConfig(c)
    ensures Inv(c, Init(c))
  {
    InitBalanced(c);
    InitPlatform(c);
    InitPassengers(c);
  }

  lemma FirstInv(c: Config, tr: seq<State>)
    requires ValidConfig(c) && Run(c, tr)
    ensures Inv(c, tr[0])
  {
    InitInv(c);
  }

  lemma NextInv(c: Config, tr: seq<State>, n: nat)
    requires ValidConfig(c) && Run(c, tr) && 0 < n < |tr| && Inv(c, tr[n - 1])
    ensures Inv(c, tr[n])
  {
    assert StepsAt(c, tr, n - 1);
    var step :| Enabled(c, tr[n - 1], step) && tr[n] == Apply(c, tr[n - 1], step);
    StepKeepsInv(c, tr[n - 1], step);
  }

  /** The invariant holds in every state of every run. */
  lemma {:induction false} RunInv(c: Config, tr: seq<State>, n: nat)
    requires ValidConfig(c) && Run(c, tr) && n < |tr|
    ensures Inv(c, tr[n])
  {
    if n == 0 {
      FirstInv(c, tr);
    } else {
      RunInv(c, tr, n - 1);
      NextInv(c, tr, n);
    }
  }

  // ----- chairs

  /** SEM_CHAIRS plus the chairs dispatched but not fully arrived is 36 in every state. */
  lemma ChairConservation(c: Config, tr: seq<State>, n: nat)
    requires ValidConfig(c) && Run(c, tr) && n < |tr|
    ensures tr[n].permits + |Outstanding(tr[n])| == 36
    ensures 0 <= tr[n].permits
  {
    RunInv(c, tr, n);
    PermitsConserved(tr[n]);
  }

  /** All passengers of the k-th departed chair have been counted at the top. */
  ghost predicate FullyArrived(s: State, k: nat) {
    && k < |s.chairs|
    && s.chairs[k].first + s.chairs[k].size <= |s.phase|
    && forall q | s.chairs[k].first <= q < s.chairs[k].first + s.chairs[k].size :: s.phase[q].Counted?
  }

  lemma CompleteMeansArrived(s: State, k: nat)
    requires |s.phase| == |s.sent| && Tallied(s)
    ensures Complete(s, k) <==> FullyArrived(s, k)
  {
    if k < |s.chairs| {
      var a, b := s.chairs[k].first, s.chairs[k].first + s.chairs[k].size;
      var stretch := s.phase[a..b];
      TallyBounds(stretch);
      assert forall q | a <= q < b :: s.phase[q] == stretch[q - a];
      if forall i | 0 <= i < |stretch| :: stretch[i].Counted? {
        AllCounted(stretch);
      } else {
        var i :| 0 <= i < |stretch| && !stretch[i].Counted?;
        assert !s.phase[a + i].Counted?;
      }
    }
  }

  /** The permits that came back belong to different chairs, to exactly those whose every
      passenger has been counted at the top. */
  lemma OnePermitPerChair(c: Config, tr: seq<State>, n: nat, k: nat)
    requires ValidConfig(c) && Run(c, tr) && n < |tr|
    ensures forall i, j | 0 <= i < j < |tr[n].returned| :: tr[n].returned[i] != tr[n].returned[j]
    ensures k in tr[n].returned <==> FullyArrived(tr[n], k)
  {
    RunInv(c, tr, n);
    CompleteMeansArrived(tr[n], k);
    assert k in tr[n].returned <==> Complete(tr[n], k);
  }

  lemma {:induction false} AllCounted(ps: seq<Phase>)
    requires forall i | 0 <= i < |ps| :: ps[i].Counted?
    ensures Tally(ps) == |ps|
  {
    if ps != [] {
      AllCounted(ps[1..]);
    }
  }

  /** Counting an arrival returns a permit exactly when it is the last of its chair. */
  lemma PermitAtLastArrival(c: Config, tr: seq<State>, n: nat)
    requires ValidConfig(c) && Run(c, tr) && n < |tr| && DistinctIds(tr[n]) && tr[n].up.hand.Some?
    ensures var s, s' := tr[n], ApplyCountArrival(tr[n]);
            exists k: nat ::
              && Arriving(s, s.up.hand.value, k)
              && s'.chairs[k].counted == s.chairs[k].counted + 1
              && s'.permits == s.permits + (if s'.chairs[k].counted == s'.chairs[k].size then 1 else 0)
              && s'.returned == s.returned + (if s'.chairs[k].counted == s'.chairs[k].size then [k] else [])
  {
    RunInv(c, tr, n);
    var k := ArrivalFacts(c, tr[n]);
    PostedAtLast(tr[n], tr[n].up.hand.value, k);
  }

  lemma ChairOfConfirmed(s: State, k: nat, q: nat)
    requires Departures(s) && Phased(s) && k < |s.chairs| && q < |s.confirmed| <= |s.sent|
    ensures ChairOf(s, q) == k <==> s.chairs[k].first <= q < s.chairs[k].first + s.chairs[k].size
  {
    var j := ChairOf(s, q);
    if j < k { ChairsInSequence(s, j, k); } else if j > k { ChairsInSequence(s, k, j); }
  }

  lemma StretchConfirmed(s: State, k: nat)
    requires Departures(s) && k < |s.chairs| && !s.low.pc.Confirming?
    ensures s.chairs[k].first + s.chairs[k].size <= |s.confirmed|
  {
    var last := |s.chairs| - 1;
    if k < last {
      ChairsInSequence(s, k, last);
      assert ChairOk(s.sent, s.chairs, last);
    }
  }

  /** A request is carried by the chair whose stretch of the order of sending it lies in, and
      a chair that has left carries its whole stretch once its confirmations are out. */
  lemma ChairTakesStretch(c: Config, tr: seq<State>, n: nat, k: nat, q: nat)
    requires ValidConfig(c) && Run(c, tr) && n < |tr| && k < |tr[n].chairs| && q < |tr[n].confirmed|
    ensures ChairOf(tr[n], q) == k <==> tr[n].chairs[k].first <= q < tr[n].chairs[k].first + tr[n].chairs[k].size
    ensures !tr[n].low.pc.Confirming? ==> tr[n].chairs[k].first + tr[n].chairs[k].size <= |tr[n].confirmed|
  {
    RunInv(c, tr, n);
    ChairOfConfirmed(tr[n], k, q);
    if !tr[n].low.pc.Confirming? { StretchConfirmed(tr[n], k); }
  }

  /** What is said about a tourist's request and its chair, wherever it is said. */
  ghost predicate Consistent(s: State, serial: nat, tourist: nat, chairId: int, heads: int) {
    && serial < |s.sent| && s.sent[serial].tourist == tourist
    && ChairOf(s, serial) < |s.chairs|
    && chairId == ChairId(ChairOf(s, serial)) && heads == s.chairs[ChairOf(s, serial)].size
  }

  /** Every confirmation is addressed to the tourist that sent the request, and every
      confirmation, every passenger on board and every arrival names the id and the number of
      requests of the one chair that request went on; confirmations and passengers its departure
      time. */
  lemma PassengersAgree(c: Config, tr: seq<State>, n: nat)
    requires ValidConfig(c) && Run(c, tr) && n < |tr|
    ensures forall b | b in tr[n].boarding ::
              && Consistent(tr[n], b.serial, b.tourist, b.chairId, b.heads)
              && b.departure == tr[n].chairs[ChairOf(tr[n], b.serial)].departure
    ensures forall i | 0 <= i < |tr[n].ts| && tr[n].ts[i].trip.Aboard? ::
              var t := tr[n].ts[i].trip;
              && Consistent(tr[n], t.serial, i, t.chairId, t.heads)
              && t.departure == tr[n].chairs[ChairOf(tr[n], t.serial)].departure
    ensures forall a | a in Uncounted(tr[n]) :: Consistent(tr[n], a.serial, a.tourist, a.chairId, a.heads)
  {
    RunInv(c, tr, n);
    ConfirmationsAgree(tr[n]);
    RidersAgree(tr[n]);
    forall a | a in Uncounted(tr[n]) ensures AnnouncementOk(tr[n], a) {
    }
  }

  lemma ConfirmationsAgree(s: State)
    requires |s.phase| == |s.sent| && Confirmations(s)
    ensures forall b | b in s.boarding ::
              && Consistent(s, b.serial, b.tourist, b.chairId, b.heads)
              && b.departure == s.chairs[ChairOf(s, b.serial)].departure
  {
    forall b | b in s.boarding ensures ConfirmationOk(s, b) {
    }
  }

  lemma RidersAgree(s: State)
    requires |s.phase| == |s.sent| && Travellers(s)
    ensures forall i | 0 <= i < |s.ts| && s.ts[i].trip.Aboard? ::
              var t := s.ts[i].trip;
              && Consistent(s, t.serial, i, t.chairId, t.heads)
              && t.departure == s.chairs[ChairOf(s, t.serial)].departure
  {
    forall i | 0 <= i < |s.ts| && s.ts[i].trip.Aboard? ensures TripOk(s, i) {
    }
  }

  ghost predicate OnBoard(s: State, i: nat, q: nat) {
    i < |s.ts| && s.ts[i].trip.Aboard? && s.ts[i].trip.serial == q
  }

  lemma PlaceByPhase(s: State, q: nat)
    requires |s.phase| == |s.sent| && q < |s.sent| && Travellers(s) && Confirmations(s) && Announcements(s)
    ensures InBoarding(s, q) <==> s.phase[q].Confirmed?
    ensures (exists i: nat :: OnBoard(s, i, q)) <==> s.phase[q].Riding?
    ensures InUncounted(s, q) <==> s.phase[q].Announced?
  {
    if s.phase[q].Riding? {
      assert OnBoard(s, s.sent[q].tourist, q);
    }
    if i: nat :| OnBoard(s, i, q) {
      assert TripOk(s, i);
    }
  }

  /** A confirmed request is at all times in exactly one of four places: one confirmation on its
      way, one tourist on board, one arrival not yet counted, or counted at the top. */
  lemma EachPassengerOnce(c: Config, tr: seq<State>, n: nat, q: nat)
    requires ValidConfig(c) && Run(c, tr) && n < |tr| && q < |tr[n].confirmed|
    ensures var s := tr[n];
            && q < |s.phase| && !s.phase[q].Requested?
            && (InBoarding(s, q) <==> s.phase[q].Confirmed?)
            && ((exists i: nat :: OnBoard(s, i, q)) <==> s.phase[q].Riding?)
            && (InUncounted(s, q) <==> s.phase[q].Announced?)
    ensures forall i, j | 0 <= i < j < |tr[n].boarding| :: tr[n].boarding[i].serial != tr[n].boarding[j].serial
    ensures forall i: nat, j: nat | OnBoard(tr[n], i, q) && OnBoard(tr[n], j, q) :: i == j
    ensures forall i, j | 0 <= i < j < |Uncounted(tr[n])| :: Uncounted(tr[n])[i].serial != Uncounted(tr[n])[j].serial
  {
    RunInv(c, tr, n);
    PlaceByPhase(tr[n], q);
    forall i: nat, j: nat | OnBoard(tr[n], i, q) && OnBoard(tr[n], j, q) ensures i == j {
      assert TripOk(tr[n], i) && TripOk(tr[n], j);
    }
  }

  // ----- ids wrap around at 72

  /** The newest outstanding chair left fewer than 72 departures after the oldest one. */
  ghost predicate SpreadBelowWrap(s: State) {
    forall j, k | j in Outstanding(s) && k in Outstanding(s) :: k - j < TOTAL_CHAIRS
  }

  /** Chairs complete in the order they departed. */
  ghost predicate CompletedInOrder(s: State) {
    forall j, k | 0 <= j < k < |s.chairs| && j in Outstanding(s) :: k in Outstanding(s)
  }

  lemma SpreadMakesIdsDistinct(s: State)
    requires SpreadBelowWrap(s)
    ensures DistinctIds(s)
  {
    forall j, k | j in Outstanding(s) && k in Outstanding(s) && ChairId(j) == ChairId(k)
      ensures j == k
    {
      SameRemainder(j, k);
    }
  }

  lemma SameRemainder(j: nat, k: nat)
    requires j % TOTAL_CHAIRS == k % TOTAL_CHAIRS && j - k < TOTAL_CHAIRS && k - j < TOTAL_CHAIRS
    ensures j == k
  {
    assert j == TOTAL_CHAIRS * (j / TOTAL_CHAIRS) + j % TOTAL_CHAIRS;
    assert k == TOTAL_CHAIRS * (k / TOTAL_CHAIRS) + k % TOTAL_CHAIRS;
  }

  /** With 36 permits, completion in order keeps the spread far below 72. */
  lemma InOrderKeepsSpread(s: State)
    requires CompletedInOrder(s) && |Outstanding(s)| <= MAX_CHAIRS_IN_TRANSIT
    ensures forall j, k | j in Outstanding(s) && k in Outstanding(s) :: k - j < MAX_CHAIRS_IN_TRANSIT
  {
    forall j, k | j in Outstanding(s) && k in Outstanding(s) && j <= k
      ensures k - j < MAX_CHAIRS_IN_TRANSIT
    {
      var between := set m | m in Outstanding(s) && j <= m <= k;
      IntervalCount(j, k + 1, between);
      assert Outstanding(s) == between + (Outstanding(s) - between);
    }
  }

  lemma {:induction false} IntervalCount(a: nat, b: nat, ks: set<nat>)
    requires a <= b
    requires forall k: nat :: k in ks <==> a <= k < b
    ensures |ks| == b - a
    decreases b
  {
    if a == b {
      assert ks == {};
    } else {
      IntervalCount(a, b - 1, ks - {b - 1});
    }
  }

  /** Every history in which chairs complete in order is a run: no id is ever reused. */
  lemma {:induction false} InOrderHistoriesAreRuns(c: Config, tr: seq<State>)
    requires ValidConfig(c) && |tr| > 0 && tr[0] == Init(c)
    requires forall n | 0 <= n < |tr| - 1 :: Next(c, tr[n], tr[n + 1])
    requires forall n | 0 <= n < |tr| :: CompletedInOrder(tr[n])
    ensures Run(c, tr) && DistinctIds(tr[|tr| - 1])
  {
    var last := |tr| - 1;
    if last > 0 {
      var before := tr[..last];
      InOrderHistoriesAreRuns(c, before);
      forall n | 0 <= n < last ensures StepsAt(c, tr, n) {
        assert before[last - 1] == tr[last - 1];
        if n < last - 1 { assert StepsAt(c, before, n); }
      }
    }
    InOrderEndIsDistinct(c, tr);
  }

  lemma InOrderEndIsDistinct(c: Config, tr: seq<State>)
    requires ValidConfig(c) && Run(c, tr) && CompletedInOrder(tr[|tr| - 1])
    ensures DistinctIds(tr[|tr| - 1])
  {
    ChairConservation(c, tr, |tr| - 1);
    InOrderKeepsSpread(tr[|tr| - 1]);
    SpreadMakesIdsDistinct(tr[|tr| - 1]);
  }

  /** The number the lower worker uses is at all times that of the chair being loaded or confirmed,
      the k-th chair bearing k mod 72 + 1, counting from 0; and at most 36 chairs are in the table
      of 64, so its "full" branch is never taken. */
  lemma WrapAroundIsSafe(c: Config, tr: seq<State>, n: nat)
    requires ValidConfig(c) && Run(c, tr) && n < |tr|
    ensures !tr[n].low.pc.Confirming? ==> tr[n].low.number == |tr[n].chairs| % 72 + 1
    ensures tr[n].low.pc.Confirming? ==> tr[n].chairs != [] && tr[n].low.number == (|tr[n].chairs| - 1) % 72 + 1
    ensures |tr[n].up.trackers| <= 36
  {
    RunInv(c, tr, n);
    TableIsSmall(tr[n]);
  }

  /** A chair that waits to leave leaves if and only if fewer than 36 are under way, the workers take a
      message whenever there is one, and a tourist waits for its confirmation exactly until it is sent. */
  ghost predicate HeldUpByNeed(c: Config, s: State, i: nat, now: int) {
    && (s.low.pc.Departing? ==> (Enabled(c, s, Depart(now)) <==> |Outstanding(s)| < 36))
    && (s.low.pc.Loop? ==> (Enabled(c, s, Receive) <==> s.queue != []))
    && (s.up.hand.None? ==> (Enabled(c, s, ReceiveArrival) <==> s.arrivals != []))
    && (i < |s.ts| && s.ts[i].at == Await ==>
          && s.ts[i].trip.Waiting? && s.ts[i].trip.serial < |s.sent|
          && (s.ts[i].trip.serial < |s.confirmed| <==> exists j: nat :: Enabled(c, s, TakeConfirmation(i, j))))
  }

  /** Nobody is held up without need. */
  lemma WaitsOnlyAsNeeded(c: Config, tr: seq<State>, n: nat, i: nat, now: int)
    requires ValidConfig(c) && Run(c, tr) && n < |tr|
    ensures HeldUpByNeed(c, tr[n], i, now)
  {
    RunInv(c, tr, n);
    InvHoldsUpByNeed(c, tr[n], i, now);
  }

  lemma InvHoldsUpByNeed(c: Config, s: State, i: nat, now: int)
    requires Inv(c, s)
    ensures HeldUpByNeed(c, s, i, now)
  {
    assert s.permits + |Outstanding(s)| == 36 by { PermitsConserved(s); }
    WorkersGoOn(c, s, now);
    if i < |s.ts| && s.ts[i].at == Await { ConfirmationIsThere(c, s, i); }
  }

  lemma WorkersGoOn(c: Config, s: State, now: int)
    requires Ordered(s) && s.permits + |Outstanding(s)| == 36
    ensures s.low.pc.Departing? ==> (Enabled(c, s, Depart(now)) <==> |Outstanding(s)| < 36)
    ensures s.low.pc.Loop? ==> (Enabled(c, s, Receive) <==> s.queue != [])
    ensures s.up.hand.None? ==> (Enabled(c, s, ReceiveArrival) <==> s.arrivals != [])
  {
    SomeMessageIsNext(s);
  }

  lemma SomeMessageIsNext(s: State)
    requires Ordered(s)
    ensures NextMessage(s.queue) < |s.queue| <==> s.queue != []
  {
    if s.queue != [] {
      assert s.queue[0].mtype == 1 || s.queue[0].mtype == 2;
    }
  }

  lemma ConfirmationIsThere(c: Config, s: State, i: nat)
    requires |s.phase| == |s.sent| && Phased(s) && Travellers(s) && Confirmations(s)
    requires i < |s.ts| && s.ts[i].at == Await
    ensures s.ts[i].trip.Waiting? && s.ts[i].trip.serial < |s.sent|
    ensures s.ts[i].trip.serial < |s.confirmed| <==> exists j: nat :: Enabled(c, s, TakeConfirmation(i, j))
  {
    assert PlaceMatchesTrip(s.ts[i]) && TripOk(s, i);
    var q := s.ts[i].trip.serial;
    if q < |s.confirmed| {
      assert InBoarding(s, q);
      var n :| 0 <= n < |s.boarding| && s.boarding[n].serial == q;
      OwnConfirmationOnly(s, i, n);
      assert Enabled(c, s, TakeConfirmation(i, n));
    }
    if j: nat :| Enabled(c, s, TakeConfirmation(i, j)) {
      assert ConfirmationOk(s, s.boarding[j]);
    }
  }

  lemma OwnConfirmationOnly(s: State, i: nat, n: nat)
    requires |s.phase| == |s.sent| && Travellers(s) && Confirmations(s)
    requires i < |s.ts| && s.ts[i].trip.Waiting? && n < |s.boarding| && s.boarding[n].serial == s.ts[i].trip.serial
    ensures s.boarding[n].tourist == i && forall k | 0 <= k < n :: s.boarding[k].tourist != i
  {
    assert ConfirmationOk(s, s.boarding[n]) && TripOk(s, i);
    forall k | 0 <= k < n ensures s.boarding[k].tourist != i {
      assert ConfirmationOk(s, s.boarding[k]);
    }
  }

  /** Arrivals in the queue or in the upper worker's hand change only at their ends. */
  predicate InTurn(before: seq<ArrivalMsg>, after: seq<ArrivalMsg>) {
    || after == before
    || (|after| == |before| + 1 && after[..|before|] == before)
    || (before != [] && after == before[1..])
  }

  lemma StepTurns(c: Config, s: State, step: Step)
    requires Enabled(c, s, step)
    ensures InTurn(Uncounted(s), Uncounted(Apply(c, s, step)))
  {
  }

  lemma TurnsAddUp<T>(first: seq<T>, later: seq<T>, k: nat)
    requires k <= |first| + |later|
    ensures forall x: T :: (first + later)[k..] + [x] == (first + (later + [x]))[k..]
    ensures k < |first| + |later| ==> (first + later)[k..][1..] == (first + later)[k + 1..]
  {
  }

  lemma NextTurn(c: Config, tr: seq<State>, n: nat)
    requires Run(c, tr) && n < |tr| - 1
    ensures InTurn(Uncounted(tr[n]), Uncounted(tr[n + 1]))
  {
    assert StepsAt(c, tr, n);
    var step :| Enabled(c, tr[n], step) && tr[n + 1] == Apply(c, tr[n], step);
    StepTurns(c, tr[n], step);
  }

  /** Arrivals are counted in the order in which they were announced: those not counted at a later
      moment are what is left of the earlier ones, and of those announced since, once some have been
      taken from the front. */
  lemma {:induction false} ArrivalsInTurn(c: Config, tr: seq<State>, n: nat, m: nat)
    returns (later: seq<ArrivalMsg>, k: nat)
    requires Run(c, tr) && n <= m < |tr|
    ensures k <= |Uncounted(tr[n])| + |later| && Uncounted(tr[m]) == (Uncounted(tr[n]) + later)[k..]
    decreases m
  {
    if n == m {
      later, k := [], 0;
    } else {
      later, k := ArrivalsInTurn(c, tr, n, m - 1);
      NextTurn(c, tr, m - 1);
      later, k := OneMoreTurn(Uncounted(tr[n]), later, k, Uncounted(tr[m - 1]), Uncounted(tr[m - 1 + 1]));
    }
  }

  lemma OneMoreTurn(first: seq<ArrivalMsg>, later: seq<ArrivalMsg>, k: nat, before: seq<ArrivalMsg>,
                    after: seq<ArrivalMsg>) returns (later': seq<ArrivalMsg>, k': nat)
    requires k <= |first| + |later| && before == (first + later)[k..] && InTurn(before, after)
    ensures k' <= |first| + |later'| && after == (first + later')[k'..]
  {
    later', k' := later, k;
    TurnsAddUp(first, later, k);
    if |after| == |before| + 1 {
      assert after == before + [after[|before|]];
      later' := later + [after[|before|]];
    } else if after != before {
      k' := k + 1;
    }
  }

  lemma TableIsSmall(s: State)
    requires |s.phase| == |s.sent| && Tallied(s) && Returns(s) && TableTracks(s)
    ensures |s.up.trackers| <= MAX_CHAIRS_IN_TRANSIT
  {
    var m := Contents(s.up.trackers);
    IdsCount(s.up.trackers);
    assert m.Keys == Ids(s.up.trackers);
    if m.Keys != {} {
      var id :| id in m.Keys;
      EntryBounds(s, id);
    }
  }

  lemma EntryBounds(s: State, id: int)
    requires |s.phase| == |s.sent| && Tallied(s) && Returns(s) && TableTracks(s)
    requires id in Contents(s.up.trackers)
    ensures |Contents(s.up.trackers).Keys| <= MAX_CHAIRS_IN_TRANSIT
  {
    var k := ChairUnder(s, Contents(s.up.trackers), id);
    TableHasRoom(s, k);
    assert Contents(s.up.trackers).Keys + {ChairId(k)} == Contents(s.up.trackers).Keys;
  }

  lemma ChairUnder(s: State, m: map<int, Progress>, id: int) returns (k: nat)
    requires MapTracks(s, m) && id in m
    ensures k in Outstanding(s) && ChairId(k) == id
  {
    k :| EntryOf(s, m, id, k);
  }
}
