/** Seating order, seat bounds and packing, over every run of the pipeline. */
module SeatTheorems {
  import opened Constants
  import opened Pipeline
  import opened Gates
  import opened Boarding
  import opened BoardingSteps
  import opened Passengers
  import opened PipelineTheorems

  // ----- order

  /** Requests sent and not yet confirmed, by where they are: still to be told of the chair
      being loaded, in the lower worker's hand, put back with priority, or queued. */
  function Unconfirmed(s: State): seq<Req>
    requires Sending(s.low) <= |s.low.pending|
  {
    s.low.pending[Sending(s.low)..] + Hand(s.low) + OfType(s.queue, 1) + OfType(s.queue, 2)
  }

  lemma {:induction false} TypesPartition(q: seq<PlatformMsg>)
    requires forall n | 0 <= n < |q| :: q[n].mtype == 1 || q[n].mtype == 2
    ensures |OfType(q, 1)| + |OfType(q, 2)| == |q|
  {
    if q != [] {
      TypesPartition(q[1..]);
    }
  }

  lemma UnconfirmedIs(s: State)
    requires Ordered(s)
    ensures Sending(s.low) <= |s.low.pending|
    ensures Unconfirmed(s) == s.sent[|s.confirmed|..]
  {
    var n, p := Sending(s.low), s.low.pending;
    assert p == p[..n] + p[n..];
    assert Backlog(s) == p[..n] + Unconfirmed(s) by {
      Regroup(p, Hand(s.low), OfType(s.queue, 1), OfType(s.queue, 2));
      Regroup(p[n..], Hand(s.low), OfType(s.queue, 1), OfType(s.queue, 2));
    }
    Suffix(s.sent, Base(s), p[..n], Unconfirmed(s));
  }

  /** Parties are confirmed in exactly the order their requests were sent, and every request is
      at all times in exactly one place: confirmed, in the buffer, in hand, or in the queue. At
      most one message has priority, and none while a request is in hand. */
  lemma SeatedInOrderOfSending(c: Config, tr: seq<State>, n: nat)
    requires ValidConfig(c) && Run(c, tr) && n < |tr|
    ensures var s := tr[n];
            && Sending(s.low) <= |s.low.pending|
            && s.confirmed + Unconfirmed(s) == s.sent
            && (forall q | 0 <= q < |s.sent| :: s.sent[q].serial == q)
            && |OfType(s.queue, 1)| + |OfType(s.queue, 2)| == |s.queue|
            && |Hand(s.low)| + |OfType(s.queue, 1)| <= 1
  {
    RunInv(c, tr, n);
    OrderOfSending(tr[n]);
  }

  lemma OrderOfSending(s: State)
    requires Ordered(s)
    ensures Sending(s.low) <= |s.low.pending|
    ensures s.confirmed + Unconfirmed(s) == s.sent
    ensures |OfType(s.queue, 1)| + |OfType(s.queue, 2)| == |s.queue|
  {
    UnconfirmedIs(s);
    TypesPartition(s.queue);
    assert s.sent[..|s.confirmed|] + s.sent[|s.confirmed|..] == s.sent;
  }

  /** No request is put back for lack of room twice. */
  lemma NoRoomAtMostOnce(c: Config, tr: seq<State>, n: nat)
    requires ValidConfig(c) && Run(c, tr) && n < |tr|
    ensures |tr[n].requeues| == |tr[n].sent|
    ensures forall q | 0 <= q < |tr[n].requeues| :: tr[n].requeues[q] <= 1
  {
    RunInv(c, tr, n);
  }

  // ----- the platform gates bound the requests in flight

  lemma WaitingForOne(s: State, p: nat, q: nat)
    requires PassengersOk(s) && |s.confirmed| <= p < q < |s.sent|
    ensures s.sent[p].tourist != s.sent[q].tourist
  {
    assert s.ts[s.sent[p].tourist].trip == Waiting(p) && s.ts[s.sent[q].tourist].trip == Waiting(q);
  }

  lemma {:induction false} WaitingTourists(s: State, n: nat) returns (who: set<nat>)
    requires PassengersOk(s) && |s.confirmed| <= n <= |s.sent|
    ensures |who| == |s.sent| - n
    ensures forall i | i in who :: exists q :: n <= q < |s.sent| && s.sent[q].tourist == i
    decreases |s.sent| - n
  {
    if n == |s.sent| {
      who := {};
    } else {
      var rest := WaitingTourists(s, n + 1);
      var i := s.sent[n].tourist;
      forall q | n + 1 <= q < |s.sent| ensures s.sent[q].tourist != i {
        WaitingForOne(s, n, q);
      }
      who := rest + {i};
      forall j | j in who ensures exists q :: n <= q < |s.sent| && s.sent[q].tourist == j {
        if j in rest {
          var q :| n + 1 <= q < |s.sent| && s.sent[q].tourist == j;
        } else {
          assert s.sent[n].tourist == j;
        }
      }
    }
  }

  lemma WaiterHoldsGate(s: State, q: nat)
    requires PassengersOk(s) && |s.confirmed| <= q < |s.sent|
    ensures s.sent[q].tourist < |s.ts| && Weight(Holds(Platform), s.ts[s.sent[q].tourist]) == 1
  {
    assert s.phase[q].Requested?;
    assert PlaceMatchesTrip(s.ts[s.sent[q].tourist]);
  }

  lemma WaitersHoldGates(s: State, who: set<nat>)
    requires PassengersOk(s)
    requires forall i | i in who :: exists q :: |s.confirmed| <= q < |s.sent| && s.sent[q].tourist == i
    ensures forall i | i in who :: i < |s.ts| && Weight(Holds(Platform), s.ts[i]) >= 1
  {
    forall i | i in who ensures i < |s.ts| && Weight(Holds(Platform), s.ts[i]) >= 1 {
      var q :| |s.confirmed| <= q < |s.sent| && s.sent[q].tourist == i;
      WaiterHoldsGate(s, q);
    }
  }

  lemma PartiesArePositive(c: Config, s: State)
    requires ValidConfig(c) && SameParties(c, s)
    ensures Positive(s.ts)
  {
  }

  lemma PlatformGatesHeld(c: Config, s: State)
    requires Balanced(c, s)
    ensures Held(Holds(Platform), s.ts) <= PLATFORM_GATES
  {
    assert 0 <= Get(s.free, Platform) && Total(c, Platform) == PLATFORM_GATES;
  }

  lemma GatesLimitWaiting(c: Config, s: State)
    requires ValidConfig(c) && Inv(c, s)
    ensures |s.sent| - |s.confirmed| <= PLATFORM_GATES
  {
    var who := WaitingTourists(s, |s.confirmed|);
    WaitersHoldGates(s, who);
    PartiesArePositive(c, s);
    HeldByEach(Holds(Platform), s.ts, who);
    PlatformGatesHeld(c, s);
  }

  /** The unconfirmed requests are those of different tourists, each of whom holds one of the three
      platform gates; so there are at most three. */
  lemma AtMostThreeWaiting(c: Config, s: State)
    requires ValidConfig(c) && Inv(c, s)
    ensures forall q | |s.confirmed| <= q < |s.sent| ::
              s.sent[q].tourist < |s.ts| && Weight(Holds(Platform), s.ts[s.sent[q].tourist]) == 1
    ensures forall p, q | |s.confirmed| <= p < q < |s.sent| :: s.sent[p].tourist != s.sent[q].tourist
    ensures |s.sent| - |s.confirmed| <= PLATFORM_GATES
  {
    forall q | |s.confirmed| <= q < |s.sent|
      ensures s.sent[q].tourist < |s.ts| && Weight(Holds(Platform), s.ts[s.sent[q].tourist]) == 1
    {
      WaiterHoldsGate(s, q);
    }
    forall p, q | |s.confirmed| <= p < q < |s.sent| ensures s.sent[p].tourist != s.sent[q].tourist {
      WaitingForOne(s, p, q);
    }
    GatesLimitWaiting(c, s);
  }

  lemma ConfirmingKeepsBuffer(c: Config, s: State, step: Step)
    requires Enabled(c, s, step) && Apply(c, s, step).low.pc.Confirming?
    ensures Apply(c, s, step).low.pending == s.low.pending
  {
  }

  lemma SeatFacts(c: Config, s: State)
    requires ValidConfig(c) && Inv(c, s)
    ensures |s.sent| - |s.confirmed| <= PLATFORM_GATES
    ensures !s.low.pc.Confirming? ==> |s.low.pending| + |Hand(s.low)| <= PLATFORM_GATES
    ensures s.low.slots == SlotSum(s.low.pending) <= CHAIR_CAPACITY
  {
    GatesLimitWaiting(c, s);
    Placement(s);
  }

  /** The buffer only grows before its chair leaves, so it stays small while it is confirmed. */
  lemma {:induction false} BufferBound(c: Config, tr: seq<State>, n: nat)
    requires ValidConfig(c) && Run(c, tr) && n < |tr|
    ensures |tr[n].low.pending| <= PLATFORM_GATES
  {
    if n > 0 {
      BufferBound(c, tr, n - 1);
      assert StepsAt(c, tr, n - 1);
      var step :| Enabled(c, tr[n - 1], step) && tr[n] == Apply(c, tr[n - 1], step);
      if tr[n].low.pc.Confirming? {
        ConfirmingKeepsBuffer(c, tr[n - 1], step);
      } else {
        RunInv(c, tr, n);
        SeatFacts(c, tr[n]);
      }
    }
  }

  /** At most three requests are unconfirmed, so the buffer of four is never full when a request
      is decided on; the slots counted for the chair are those of its requests, at most four. */
  lemma SeatBound(c: Config, tr: seq<State>, n: nat)
    requires ValidConfig(c) && Run(c, tr) && n < |tr|
    ensures |tr[n].sent| - |tr[n].confirmed| <= 3
    ensures |tr[n].low.pending| <= 3 < MAX_PENDING_PER_CHAIR
    ensures tr[n].low.pc.InHand? ==> |tr[n].low.pending| < 3
    ensures tr[n].low.slots == SlotSum(tr[n].low.pending) <= 4
  {
    RunInv(c, tr, n);
    SeatFacts(c, tr[n]);
    BufferBound(c, tr, n);
  }

  lemma GatesBalance(c: Config, s: State)
    requires ValidConfig(c) && SameParties(c, s) && Balanced(c, s)
    ensures 0 <= s.count == Held(InCount, s.ts) <= c.capacity
    ensures forall g: Gate :: 0 <= Get(s.free, g) && Get(s.free, g) + Held(Holds(g), s.ts) == Total(c, g)
  {
    StationWithinCapacity(c, s);
  }

  /** For any number of tourists, lower_station_count stays within the capacity and equals the
      slots of the tourists between their two updates; every gate keeps its permits. */
  lemma StationBound(c: Config, tr: seq<State>, n: nat)
    requires ValidConfig(c) && Run(c, tr) && n < |tr|
    ensures 0 <= tr[n].count == Held(InCount, tr[n].ts) <= c.capacity
    ensures forall g: Gate :: 0 <= Get(tr[n].free, g) && Get(tr[n].free, g) + Held(Holds(g), tr[n].ts) == Total(c, g)
  {
    RunInv(c, tr, n);
    GatesBalance(c, tr[n]);
  }

  // ----- packing

  /** A chair carries at least the slots of its first request. */
  lemma FirstFits(s: State, k: nat)
    requires PlatformOk(s) && k < |s.chairs|
    ensures 0 <= s.chairs[k].first < |s.sent| && 1 <= s.sent[s.chairs[k].first].slots <= s.chairs[k].slots
  {
    var d := s.chairs[k];
    assert ChairOk(s.sent, s.chairs, k);
    var rs := s.sent[d.first..d.first + d.size];
    assert FitsChair(rs) && rs[0] == s.sent[d.first];
    SlotSumBounds(rs);
  }

  lemma PairCarriesFive(s: State, k: nat)
    requires PlatformOk(s) && k + 1 < |s.chairs| && !s.chairs[k].cause.Interrupted?
    ensures s.chairs[k].slots + s.chairs[k + 1].slots >= 5
  {
    FirstFits(s, k + 1);
    assert ChairOk(s.sent, s.chairs, k) && ChairOk(s.sent, s.chairs, k + 1);
    assert s.chairs[..k + 1][k] == s.chairs[k];
  }

  function SlotsCarried(chairs: seq<Chair>, from: nat, m: nat): int
    requires from + m <= |chairs|
    decreases m
  {
    if m == 0 then 0 else chairs[from].slots + SlotsCarried(chairs, from + 1, m - 1)
  }

  lemma {:induction false} StretchPacked(s: State, from: nat, m: nat)
    requires PlatformOk(s) && from + m <= |s.chairs|
    requires forall k | from <= k < from + m - 1 :: !s.chairs[k].cause.Interrupted?
    ensures SlotsCarried(s.chairs, from, m) >= 5 * (m / 2)
    decreases m
  {
    if m == 1 {
      assert ChairOk(s.sent, s.chairs, from);
      SlotSumBounds(s.sent[s.chairs[from].first..s.chairs[from].first + s.chairs[from].size]);
    } else if m >= 2 {
      StretchPacked(s, from + 2, m - 2);
      PairCarriesFive(s, from);
    }
  }

  /** A chair that left because it was full, or because the next party did not fit, carries at
      least 5 slots together with the chair after it; m chairs in a row of which none but the
      last left on an interrupt carry at least 5 * (m / 2). */
  lemma PackingBound(c: Config, tr: seq<State>, n: nat, from: nat, m: nat)
    requires ValidConfig(c) && Run(c, tr) && n < |tr| && from + m <= |tr[n].chairs|
    requires forall k | from <= k < from + m - 1 :: !tr[n].chairs[k].cause.Interrupted?
    ensures m >= 2 ==> tr[n].chairs[from].slots + tr[n].chairs[from + 1].slots >= 5
    ensures SlotsCarried(tr[n].chairs, from, m) >= 5 * (m / 2)
  {
    RunInv(c, tr, n);
    StretchPacked(tr[n], from, m);
    if m >= 2 { PairCarriesFive(tr[n], from); }
  }
}
