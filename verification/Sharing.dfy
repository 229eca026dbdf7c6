/**
 Where no two parties can share a chair, chairs are conserved in every history, reused ids or not:
 every chair carries one party, and the tracking table is empty between arrivals.
 */
module Sharing {
  import opened Constants
  import opened ChairTracking
  import opened Pipeline
  import opened Gates
  import opened Boarding
  import opened BoardingSteps
  import opened Passengers
  import opened ArrivalStep
  import opened PipelineTheorems
  import opened SeatTheorems

  // ----- histories

  ghost predicate MovesAt(c: Config, tr: seq<State>, n: nat)
    requires n < |tr| - 1
  {
    Next(c, tr[n], tr[n + 1])
  }

  /** Any history from the initial state, whether an id is reused or not. */
  ghost predicate History(c: Config, tr: seq<State>) {
    && |tr| > 0 && tr[0] == Init(c)
    && forall n | 0 <= n < |tr| - 1 :: MovesAt(c, tr, n)
  }

  /** SEM_CHAIRS plus the chairs dispatched and not fully arrived is 36, after every history. */
  ghost predicate AlwaysConserved(c: Config) {
    forall tr: seq<State> | History(c, tr) ::
      tr[|tr| - 1].permits + |Outstanding(tr[|tr| - 1])| == 36
  }

  // ----- who can share

  predicate Fits(c: Config, i: nat) {
    i < |c.parties| && c.parties[i].stationSlots <= c.capacity
  }

  /** Two parties that both fit the station fit one chair together. */
  predicate CanShare(c: Config, i: nat, j: nat) {
    i != j && Fits(c, i) && Fits(c, j) && c.parties[i].chairSlots + c.parties[j].chairSlots <= 4
  }

  ghost predicate NobodyShares(c: Config) {
    forall i: nat, j: nat :: !CanShare(c, i, j)
  }

  // ----- only parties that fit get in

  predicate Inside(at: Place) {
    at !in {Start, EntryGate, StationDoor, Gone}
  }

  ghost predicate Fitted(c: Config, s: State) {
    |s.ts| == |c.parties| && forall i | 0 <= i < |s.ts| && Inside(s.ts[i].at) :: Fits(c, i)
  }

  lemma FreeWithinCapacity(c: Config, s: State)
    requires ValidConfig(c) && SameParties(c, s) && Balanced(c, s)
    ensures s.free.station <= c.capacity
  {
    PartiesArePositive(c, s);
    if s.ts != [] { HeldBounds(Holds(Station), s.ts, 0); }
    assert Get(s.free, Station) + Held(Holds(Station), s.ts) == c.capacity;
  }

  lemma MoveKeepsFitted(c: Config, s: State, i: nat, to: Place)
    requires ValidConfig(c) && SameParties(c, s) && Balanced(c, s) && Fitted(c, s) && Enabled(c, s, Move(i, to))
    ensures Fitted(c, ApplyMove(s, i, to))
  {
    FreeWithinCapacity(c, s);
    if s.ts[i].at == StationDoor { assert s.ts[i].party == c.parties[i]; }
  }

  lemma StepKeepsFitted(c: Config, s: State, step: Step)
    requires ValidConfig(c) && SameParties(c, s) && Balanced(c, s) && Fitted(c, s) && Enabled(c, s, step)
    ensures Fitted(c, Apply(c, s, step))
  {
    if step.Move? { MoveKeepsFitted(c, s, step.i, step.to); }
  }

  // ----- chairs of one party

  /** Every chair that left carries one party, and the table is empty. */
  ghost predicate Alone(s: State) {
    s.up.trackers == [] && forall k | 0 <= k < |s.chairs| :: s.chairs[k].size == 1
  }

  /** The sender of an unconfirmed request waits inside the station's gates. */
  lemma WaiterFits(c: Config, s: State, q: nat)
    requires SameParties(c, s) && PassengersOk(s) && Fitted(c, s) && |s.confirmed| <= q < |s.sent|
    ensures Fits(c, s.sent[q].tourist) && s.sent[q].slots == c.parties[s.sent[q].tourist].chairSlots
  {
    assert s.phase[q].Requested?;
    assert PlaceMatchesTrip(s.ts[s.sent[q].tourist]);
  }

  lemma TwoTakeTheirSlots(rs: seq<Req>)
    requires FitsChair(rs) && |rs| >= 2
    ensures rs[0].slots + rs[1].slots <= SlotSum(rs)
  {
    assert FitsChair(rs[1..]);
    SlotSumBounds(rs[1..]);
  }

  lemma PendingAreNext(s: State)
    requires PlatformOk(s) && !s.low.pc.Confirming? && |s.low.pending| >= 2
    ensures |s.confirmed| + 1 < |s.sent|
    ensures s.low.pending[0] == s.sent[|s.confirmed|] && s.low.pending[1] == s.sent[|s.confirmed| + 1]
    ensures s.low.pending[0].slots + s.low.pending[1].slots <= CHAIR_CAPACITY
  {
    Placement(s);
    assert FitsChair(s.low.pending);
    TwoTakeTheirSlots(s.low.pending);
  }

  /** Parties pending together could share a chair. */
  lemma PendingShare(c: Config, s: State)
    requires Inv(c, s) && Fitted(c, s) && !s.low.pc.Confirming? && |s.low.pending| >= 2
    ensures CanShare(c, s.low.pending[0].tourist, s.low.pending[1].tourist)
  {
    PendingAreNext(s);
    WaiterFits(c, s, |s.confirmed|);
    WaiterFits(c, s, |s.confirmed| + 1);
    WaitingForOne(s, |s.confirmed|, |s.confirmed| + 1);
  }

  lemma DepartKeepsAlone(c: Config, s: State, now: int)
    requires NobodyShares(c) && Inv(c, s) && Fitted(c, s) && Alone(s) && s.low.pc.Departing?
    ensures Alone(ApplyDepart(s, now))
  {
    if |s.low.pending| >= 2 { PendingShare(c, s); }
  }

  lemma LoneArrival(a: Arrival)
    requires a.heads == 1
    ensures Track([], a) == Outcome([], true)
  {
    assert Find([], a.id) == 0;
    assert Lookup([], a) == [Tracker(a.id, 1, 0)];
    AloneInTable(Tracker(a.id, 1, 0));
  }

  lemma LoneArrivalCounts(s: State, a: ArrivalMsg, k: nat)
    requires Arriving(s, a, k) && Tallied(s) && Returns(s) && Alone(s)
    ensures var s' := ApplyCountArrival(s);
            && Alone(s') && s'.permits == s.permits + 1 && s'.returned == s.returned + [k]
            && s.chairs[k].counted == 0
  {
    ArrivalIsOutstanding(s, a, k);
    LoneArrival(Arrival(a.chairId, a.heads));
  }

  lemma LoneReturns(s: State, a: ArrivalMsg, k: nat)
    requires Arriving(s, a, k) && Tallied(s) && Returns(s) && Alone(s)
    ensures Returns(ApplyCountArrival(s))
  {
    var s' := ApplyCountArrival(s);
    ArrivalIsOutstanding(s, a, k);
    LoneArrivalCounts(s, a, k);
    ApplyCredits(s, a, k);
    assert !Complete(s, k);
    forall j: nat ensures j in s'.returned <==> Complete(s', j) {
      assert j in s.returned <==> Complete(s, j);
    }
  }

  /** Chairs of one party are never partly counted. */
  lemma NothingTracked(s: State)
    requires |s.phase| == |s.sent| && Tallied(s) && Alone(s)
    ensures TableTracks(s)
  {
    assert Ids(s.up.trackers) == {};
    assert Contents(s.up.trackers) == map[];
  }

  lemma LoneCountPassengers(s: State, a: ArrivalMsg, k: nat)
    requires Arriving(s, a, k) && PassengersOk(s) && OnlyChair(s, a.serial, k) && Alone(s)
    ensures PassengersOk(ApplyCountArrival(s)) && Alone(ApplyCountArrival(s))
  {
    var s' := ApplyCountArrival(s);
    ApplyCredits(s, a, k);
    LoneArrivalCounts(s, a, k);
    LoneReturns(s, a, k);
    CountTallied(s, s', a, k);
    NothingTracked(s');
    CreditsKeepPassengers(s, s', a, k);
  }

  // ----- over every history

  ghost predicate Sparse(c: Config, s: State) {
    Inv(c, s) && Fitted(c, s) && Alone(s)
  }

  lemma CountKeepsSparse(c: Config, s: State)
    requires ValidConfig(c) && Sparse(c, s) && s.up.hand.Some?
    ensures PassengersOk(ApplyCountArrival(s)) && Alone(ApplyCountArrival(s))
  {
    var k := ArrivalFacts(c, s);
    LoneCountPassengers(s, s.up.hand.value, k);
  }

  lemma OthersKeepAlone(c: Config, s: State, step: Step)
    requires Alone(s) && Enabled(c, s, step) && !step.Depart? && !step.CountArrival?
    ensures Alone(Apply(c, s, step))
  {
  }

  lemma StepKeepsSparse(c: Config, s: State, step: Step)
    requires ValidConfig(c) && NobodyShares(c) && Sparse(c, s) && Enabled(c, s, step)
    ensures Sparse(c, Apply(c, s, step))
  {
    PartiesStay(c, s, step);
    StepBalances(c, s, step);
    StepPlatform(c, s, step);
    StepKeepsFitted(c, s, step);
    if step.CountArrival? {
      CountKeepsSparse(c, s);
    } else {
      StepPassengersButCounting(c, s, step);
      if step.Depart? { DepartKeepsAlone(c, s, step.now); } else { OthersKeepAlone(c, s, step); }
    }
  }

  lemma InitSparse(c: Config)
    requires ValidConfig(c)
    ensures Sparse(c, Init(c))
  {
    InitInv(c);
    InitAlone(c);
  }

  lemma InitAlone(c: Config)
    ensures Fitted(c, Init(c)) && Alone(Init(c))
  {
  }

  lemma NextSparse(c: Config, tr: seq<State>, n: nat)
    requires ValidConfig(c) && NobodyShares(c) && History(c, tr) && 0 < n < |tr| && Sparse(c, tr[n - 1])
    ensures Sparse(c, tr[n])
  {
    assert MovesAt(c, tr, n - 1);
    var step :| Enabled(c, tr[n - 1], step) && tr[n] == Apply(c, tr[n - 1], step);
    StepKeepsSparse(c, tr[n - 1], step);
  }

  lemma FirstSparse(c: Config, tr: seq<State>)
    requires ValidConfig(c) && History(c, tr)
    ensures Sparse(c, tr[0])
  {
    InitSparse(c);
  }

  lemma {:induction false} HistoryIsSparse(c: Config, tr: seq<State>, n: nat)
    requires ValidConfig(c) && NobodyShares(c) && History(c, tr) && n < |tr|
    ensures Sparse(c, tr[n])
  {
    if n == 0 {
      FirstSparse(c, tr);
    } else {
      HistoryIsSparse(c, tr, n - 1);
      NextSparse(c, tr, n);
    }
  }

  lemma HistoryConserves(c: Config, tr: seq<State>)
    requires ValidConfig(c) && NobodyShares(c) && History(c, tr)
    ensures tr[|tr| - 1].permits + |Outstanding(tr[|tr| - 1])| == 36
  {
    HistoryIsSparse(c, tr, |tr| - 1);
    PermitsConserved(tr[|tr| - 1]);
  }

  lemma NobodySharesConserves(c: Config)
    requires ValidConfig(c) && NobodyShares(c)
    ensures AlwaysConserved(c)
  {
    forall tr: seq<State> | History(c, tr)
      ensures tr[|tr| - 1].permits + |Outstanding(tr[|tr| - 1])| == 36
    {
      HistoryConserves(c, tr);
    }
  }
}
