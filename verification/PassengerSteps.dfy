/** Every step of the pipeline but the counting of an arrival keeps the passenger invariants. */
module PassengerSteps {
  import opened Constants
  import opened ChairTracking
  import opened Pipeline
  import opened Passengers

  // ----- tallies

  lemma {:induction false} TallyUpdate(ps: seq<Phase>, i: nat, p: Phase)
    requires i < |ps|
    ensures Tally(ps[i := p]) == Tally(ps) - (if ps[i].Counted? then 1 else 0) + (if p.Counted? then 1 else 0)
  {
    if i == 0 {
      assert ps[i := p][1..] == ps[1..];
    } else {
      assert ps[i := p][1..] == ps[1..][i - 1 := p];
      TallyUpdate(ps[1..], i - 1, p);
    }
  }

  lemma {:induction false} TallyBounds(ps: seq<Phase>)
    ensures Tally(ps) <= |ps|
    ensures (exists i :: 0 <= i < |ps| && !ps[i].Counted?) ==> Tally(ps) < |ps|
    ensures (forall i | 0 <= i < |ps| :: !ps[i].Counted?) ==> Tally(ps) == 0
  {
    if ps != [] {
      TallyBounds(ps[1..]);
      assert forall i | 1 <= i < |ps| :: ps[i] == ps[1..][i - 1];
    }
  }

  /** Marking one request changes the tally of a stretch only if it lies in it. */
  lemma TallyOfStretch(ps: seq<Phase>, q: nat, p: Phase, a: nat, b: nat)
    requires q < |ps| && a <= b <= |ps|
    ensures Tally(ps[q := p][a..b]) == Tally(ps[a..b])
              + (if a <= q < b then (if p.Counted? then 1 else 0) - (if ps[q].Counted? then 1 else 0) else 0)
  {
    if a <= q < b {
      assert ps[q := p][a..b] == ps[a..b][q - a := p];
      TallyUpdate(ps[a..b], q - a, p);
    } else {
      assert ps[q := p][a..b] == ps[a..b];
    }
  }

  lemma MarkKeepsTallies(s: State, s': State, q: nat)
    requires |s.phase| == |s.sent| && Tallied(s) && q < |s.phase|
    requires |s'.sent| == |s.sent| && |s'.phase| == |s.phase| && s'.phase == s.phase[q := s'.phase[q]]
    requires s'.chairs == s.chairs
    requires !s.phase[q].Counted? && !s'.phase[q].Counted?
    ensures Tallied(s')
  {
    forall k | 0 <= k < |s.chairs|
      ensures s'.chairs[k].counted == Tally(s'.phase[s'.chairs[k].first..s'.chairs[k].first + s'.chairs[k].size])
    {
      var c := s.chairs[k];
      TallyOfStretch(s.phase, q, s'.phase[q], c.first, c.first + c.size);
    }
  }

  // ----- what a step must keep

  /** Departed chairs stay as they are; more may depart. */
  ghost predicate ChairsGrow(cs: seq<Chair>, cs': seq<Chair>) {
    && |cs| <= |cs'|
    && forall k | 0 <= k < |cs| ::
         cs'[k].first == cs[k].first && cs'[k].size == cs[k].size && cs'[k].departure == cs[k].departure
  }

  ghost predicate HistoryGrows(s: State, s': State) {
    && |s.phase| == |s.sent| <= |s'.sent| == |s'.phase|
    && (forall q | 0 <= q < |s.sent| :: s'.sent[q] == s.sent[q])
    && ChairsGrow(s.chairs, s'.chairs)
  }

  lemma KeepConfirmations(s: State, s': State)
    requires HistoryGrows(s, s') && Confirmations(s) && s'.boarding == s.boarding
    requires forall q | 0 <= q < |s.sent| && (s.phase[q].Confirmed? || s'.phase[q].Confirmed?) ::
               s'.phase[q] == s.phase[q]
    requires forall q | |s.sent| <= q < |s'.sent| :: !s'.phase[q].Confirmed?
    ensures Confirmations(s')
  {
    forall n | 0 <= n < |s.boarding| ensures ConfirmationOk(s', s.boarding[n]) {
      assert ConfirmationOk(s, s.boarding[n]);
    }
    forall q | 0 <= q < |s'.sent| && s'.phase[q].Confirmed? ensures InBoarding(s', q) {
      assert InBoarding(s, q);
    }
  }

  lemma KeepAnnouncements(s: State, s': State)
    requires HistoryGrows(s, s') && Announcements(s) && Uncounted(s') == Uncounted(s)
    requires forall q | 0 <= q < |s.sent| && (s.phase[q].Announced? || s'.phase[q].Announced?) ::
               s'.phase[q] == s.phase[q]
    requires forall q | |s.sent| <= q < |s'.sent| :: !s'.phase[q].Announced?
    ensures Announcements(s')
  {
    forall n | 0 <= n < |Uncounted(s)| ensures AnnouncementOk(s', Uncounted(s)[n]) {
      assert AnnouncementOk(s, Uncounted(s)[n]);
    }
    forall q | 0 <= q < |s'.sent| && s'.phase[q].Announced? ensures InUncounted(s', q) {
      assert InUncounted(s, q);
    }
  }

  lemma KeepTable(s: State, s': State)
    requires TableTracks(s) && s'.up.trackers == s.up.trackers && ChairsGrow(s.chairs, s'.chairs)
    requires forall k | 0 <= k < |s.chairs| :: s'.chairs[k].counted == s.chairs[k].counted
    requires forall k | |s.chairs| <= k < |s'.chairs| :: s'.chairs[k].counted == 0
    ensures TableTracks(s')
  {
    var m := Contents(s.up.trackers);
    forall id | id in m ensures exists k: nat :: EntryOf(s', m, id, k) {
      var k: nat :| EntryOf(s, m, id, k);
      assert EntryOf(s', m, id, k);
    }
    forall k: nat | PartlyCounted(s', k) ensures ChairId(k) in m && EntryOf(s', m, ChairId(k), k) {
      assert PartlyCounted(s, k);
    }
  }

  lemma KeepReturns(s: State, s': State)
    requires Returns(s) && s'.returned == s.returned && s'.permits == s.permits && s'.chairs == s.chairs
    ensures Returns(s')
  {
    forall k: nat ensures k in s'.returned <==> Complete(s', k) {
      assert k in s.returned <==> Complete(s, k);
    }
  }

  /** Trips nobody changed stay right while their requests keep their phase. */
  lemma KeepTrip(s: State, s': State, i: nat)
    requires HistoryGrows(s, s') && i < |s.ts| && i < |s'.ts| && s'.ts[i].trip == s.ts[i].trip
    requires TripOk(s, i)
    requires !s.ts[i].trip.NoTrip? ==> s'.phase[s.ts[i].trip.serial] == s.phase[s.ts[i].trip.serial]
    ensures TripOk(s', i)
  {
  }

  // ----- steps that leave passengers alone

  ghost predicate SamePassengers(s: State, s': State) {
    && s'.sent == s.sent && s'.confirmed == s.confirmed && s'.phase == s.phase && s'.boarding == s.boarding
    && Uncounted(s') == Uncounted(s) && s'.up.trackers == s.up.trackers
    && s'.chairs == s.chairs && s'.returned == s.returned && s'.permits == s.permits
  }

  /** At most one tourist moves on, without sending or receiving anything. */
  lemma Wander(s: State, s': State)
    requires PassengersOk(s) && SamePassengers(s, s') && |s'.ts| == |s.ts|
    requires forall i | 0 <= i < |s.ts| :: s'.ts[i] == s.ts[i].(at := s'.ts[i].at) && PlaceMatchesTrip(s'.ts[i])
    ensures PassengersOk(s')
  {
    KeepConfirmations(s, s');
    KeepAnnouncements(s, s');
    KeepTable(s, s');
    KeepReturns(s, s');
    forall i | 0 <= i < |s.ts| ensures TripOk(s', i) {
      KeepTrip(s, s', i);
    }
  }

  // ----- a request is sent

  lemma SendRequestTravellers(s: State, i: nat)
    requires Phased(s) && Travellers(s) && i < |s.ts| && s.ts[i].at == Request
    ensures Travellers(ApplySendRequest(s, i))
  {
    var s' := ApplySendRequest(s, i);
    assert s.ts[i].trip == NoTrip;
    forall j | 0 <= j < |s.ts| ensures PlaceMatchesTrip(s'.ts[j]) && TripOk(s', j) {
      assert PlaceMatchesTrip(s.ts[j]) && TripOk(s, j);
    }
    forall q | 0 <= q < |s.sent|
      ensures s'.sent[q] == s.sent[q] && s'.phase[q] == s.phase[q]
      ensures s.phase[q].Requested? || s.phase[q].Confirmed? || s.phase[q].Riding? ==> s.sent[q].tourist != i
    {
    }
  }

  lemma SendRequestTallied(s: State, s': State)
    requires |s.phase| == |s.sent| && |s'.phase| == |s'.sent| && Tallied(s)
    requires s'.chairs == s.chairs && s'.phase == s.phase + [Requested]
    ensures Tallied(s')
  {
    forall k | 0 <= k < |s.chairs|
      ensures s'.phase[s.chairs[k].first..s.chairs[k].first + s.chairs[k].size]
           == s.phase[s.chairs[k].first..s.chairs[k].first + s.chairs[k].size]
    {
    }
  }

  lemma SendRequestPassengers(s: State, i: nat)
    requires PassengersOk(s) && i < |s.ts| && s.ts[i].at == Request && |s.confirmed| <= |s.sent|
    ensures PassengersOk(ApplySendRequest(s, i))
  {
    var s' := ApplySendRequest(s, i);
    SendRequestTravellers(s, i);
    KeepConfirmations(s, s');
    KeepAnnouncements(s, s');
    KeepTable(s, s');
    KeepReturns(s, s');
    SendRequestTallied(s, s');
  }

  // ----- a chair departs

  lemma DepartTallied(s: State, now: int)
    requires Phased(s) && Tallied(s) && s.low.pc.Departing? && |s.confirmed| + |s.low.pending| <= |s.sent|
    ensures Tallied(ApplyDepart(s, now))
  {
    TallyBounds(s.phase[|s.confirmed|..|s.confirmed| + |s.low.pending|]);
  }

  lemma DepartReturns(s: State, now: int)
    requires Returns(s) && s.low.pc.Departing? && s.permits >= 1 && s.low.pending != []
    ensures Returns(ApplyDepart(s, now))
  {
    var s' := ApplyDepart(s, now);
    forall k: nat ensures k in s'.returned <==> Complete(s', k) {
      assert k in s.returned <==> Complete(s, k);
    }
  }

  lemma DepartPassengers(s: State, now: int)
    requires PassengersOk(s) && s.low.pc.Departing? && s.permits >= 1 && s.low.pending != []
    requires |s.confirmed| + |s.low.pending| <= |s.sent|
    ensures PassengersOk(ApplyDepart(s, now))
  {
    var s' := ApplyDepart(s, now);
    DepartTallied(s, now);
    DepartReturns(s, now);
    KeepConfirmations(s, s');
    KeepAnnouncements(s, s');
    KeepTable(s, s');
    forall i | 0 <= i < |s.ts| ensures TripOk(s', i) {
      KeepTrip(s, s', i);
    }
  }

  // ----- a passenger is confirmed

  /** The lower worker is about to confirm request `q` on the chair that left last. */
  ghost predicate AboutToConfirm(s: State, q: nat) {
    && s.low.pc.Confirming? && s.low.pc.next < |s.low.pending|
    && q == |s.confirmed| < |s.sent| && s.low.pending[s.low.pc.next] == s.sent[q] && s.sent[q].serial == q
    && s.chairs != []
    && var k := |s.chairs| - 1;
       && s.chairs[k].first <= q < s.chairs[k].first + s.chairs[k].size
       && s.chairs[k].size == |s.low.pending| && s.chairs[k].departure == s.low.pc.departure
       && s.low.number == ChairId(k)
  }

  lemma ConfirmTravellers(s: State, q: nat)
    requires AboutToConfirm(s, q) && Phased(s) && Travellers(s)
    ensures Travellers(ApplyConfirm(s))
  {
    var s' := ApplyConfirm(s);
    assert s'.phase == s.phase[q := Confirmed(|s.chairs| - 1)];
    forall i | 0 <= i < |s.ts| ensures PlaceMatchesTrip(s'.ts[i]) && TripOk(s', i) {
      assert TripOk(s, i);
    }
  }

  lemma ConfirmConfirmations(s: State, q: nat)
    requires AboutToConfirm(s, q) && Phased(s) && Confirmations(s)
    ensures Confirmations(ApplyConfirm(s))
  {
    var s' := ApplyConfirm(s);
    assert s'.phase == s.phase[q := Confirmed(|s.chairs| - 1)];
    forall n | 0 <= n < |s'.boarding| ensures ConfirmationOk(s', s'.boarding[n]) {
      assert n < |s.boarding| ==> ConfirmationOk(s, s.boarding[n]);
    }
    forall p | 0 <= p < |s'.sent| && s'.phase[p].Confirmed? ensures InBoarding(s', p) {
      if p == q {
        assert s'.boarding[|s.boarding|].serial == q;
      } else {
        assert InBoarding(s, p);
        var n :| 0 <= n < |s.boarding| && s.boarding[n].serial == p;
        assert s'.boarding[n].serial == p;
      }
    }
  }

  lemma ConfirmPassengers(s: State, q: nat)
    requires AboutToConfirm(s, q) && PassengersOk(s)
    ensures PassengersOk(ApplyConfirm(s))
  {
    var s' := ApplyConfirm(s);
    assert s'.phase == s.phase[q := Confirmed(|s.chairs| - 1)];
    ConfirmTravellers(s, q);
    ConfirmConfirmations(s, q);
    KeepAnnouncements(s, s');
    MarkKeepsTallies(s, s', q);
    KeepTable(s, s');
    KeepReturns(s, s');
  }

  // ----- a passenger takes its confirmation

  lemma TakeTravellers(s: State, i: nat, j: nat)
    requires |s.phase| == |s.sent| && Travellers(s) && Confirmations(s)
    requires i < |s.ts| && s.ts[i].at == Await && j < |s.boarding| && s.boarding[j].tourist == i
    ensures Travellers(ApplyTakeConfirmation(s, i, j))
  {
    var s', q := ApplyTakeConfirmation(s, i, j), s.boarding[j].serial;
    assert ConfirmationOk(s, s.boarding[j]);
    assert s.ts[i].trip == Waiting(q);
    assert s'.phase == s.phase[q := Riding(s.phase[q].chair)];
    forall n | 0 <= n < |s.ts| ensures PlaceMatchesTrip(s'.ts[n]) && TripOk(s', n) {
      assert PlaceMatchesTrip(s.ts[n]) && TripOk(s, n);
    }
    forall p | 0 <= p < |s.sent| && p != q
      ensures s.phase[p].Requested? || s.phase[p].Confirmed? || s.phase[p].Riding? ==> s.sent[p].tourist != i
    {
    }
  }

  lemma TakeConfirmations(s: State, i: nat, j: nat)
    requires |s.phase| == |s.sent| && Confirmations(s) && i < |s.ts| && j < |s.boarding|
    ensures Confirmations(ApplyTakeConfirmation(s, i, j))
  {
    var s', q := ApplyTakeConfirmation(s, i, j), s.boarding[j].serial;
    assert ConfirmationOk(s, s.boarding[j]);
    assert forall n | 0 <= n < |s'.boarding| :: s'.boarding[n] == s.boarding[if n < j then n else n + 1];
    forall n | 0 <= n < |s'.boarding| ensures ConfirmationOk(s', s'.boarding[n]) {
      assert ConfirmationOk(s, s.boarding[if n < j then n else n + 1]);
    }
    forall p | 0 <= p < |s'.sent| && s'.phase[p].Confirmed? ensures InBoarding(s', p) {
      assert InBoarding(s, p);
      var n :| 0 <= n < |s.boarding| && s.boarding[n].serial == p;
      assert s'.boarding[if n < j then n else n - 1].serial == p;
    }
  }

  lemma TakeConfirmationPassengers(s: State, i: nat, j: nat)
    requires PassengersOk(s)
    requires i < |s.ts| && s.ts[i].at == Await && j < |s.boarding| && s.boarding[j].tourist == i
    ensures PassengersOk(ApplyTakeConfirmation(s, i, j))
  {
    var s', q := ApplyTakeConfirmation(s, i, j), s.boarding[j].serial;
    assert ConfirmationOk(s, s.boarding[j]);
    assert s'.phase == s.phase[q := Riding(s.phase[q].chair)];
    TakeTravellers(s, i, j);
    TakeConfirmations(s, i, j);
    KeepAnnouncements(s, s');
    MarkKeepsTallies(s, s', q);
    KeepTable(s, s');
    KeepReturns(s, s');
  }

  // ----- a passenger announces its arrival

  lemma SendArrivalTravellers(s: State, i: nat)
    requires |s.phase| == |s.sent| && Travellers(s) && i < |s.ts| && s.ts[i].at == Announce
    ensures Travellers(ApplySendArrival(s, i))
  {
    var s', q := ApplySendArrival(s, i), s.ts[i].trip.serial;
    assert TripOk(s, i);
    assert s'.phase == s.phase[q := Announced(s.phase[q].chair)];
    forall n | 0 <= n < |s.ts| ensures PlaceMatchesTrip(s'.ts[n]) && TripOk(s', n) {
      assert PlaceMatchesTrip(s.ts[n]) && TripOk(s, n);
    }
    forall p | 0 <= p < |s.sent| && p != q
      ensures s.phase[p].Requested? || s.phase[p].Confirmed? || s.phase[p].Riding? ==> s.sent[p].tourist != i
    {
    }
  }

  lemma SendArrivalAnnouncements(s: State, i: nat)
    requires |s.phase| == |s.sent| && Travellers(s) && Announcements(s) && i < |s.ts| && s.ts[i].at == Announce
    ensures Announcements(ApplySendArrival(s, i))
  {
    var s', q := ApplySendArrival(s, i), s.ts[i].trip.serial;
    assert TripOk(s, i);
    assert s'.phase == s.phase[q := Announced(s.phase[q].chair)];
    var a := ArrivalMsg(q, i, s.ts[i].trip.chairId, s.ts[i].trip.heads);
    assert Uncounted(s') == Uncounted(s) + [a];
    forall n | 0 <= n < |Uncounted(s')| ensures AnnouncementOk(s', Uncounted(s')[n]) {
      assert n < |Uncounted(s)| ==> AnnouncementOk(s, Uncounted(s)[n]);
    }
    forall p | 0 <= p < |s'.sent| && s'.phase[p].Announced? ensures InUncounted(s', p) {
      if p == q {
        assert Uncounted(s')[|Uncounted(s)|].serial == q;
      } else {
        assert InUncounted(s, p);
        var n :| 0 <= n < |Uncounted(s)| && Uncounted(s)[n].serial == p;
        assert Uncounted(s')[n].serial == p;
      }
    }
  }

  lemma SendArrivalPassengers(s: State, i: nat)
    requires PassengersOk(s) && i < |s.ts| && s.ts[i].at == Announce
    ensures PassengersOk(ApplySendArrival(s, i))
  {
    var s', q := ApplySendArrival(s, i), s.ts[i].trip.serial;
    assert TripOk(s, i);
    assert s'.phase == s.phase[q := Announced(s.phase[q].chair)];
    SendArrivalTravellers(s, i);
    SendArrivalAnnouncements(s, i);
    KeepConfirmations(s, s');
    MarkKeepsTallies(s, s', q);
    KeepTable(s, s');
    KeepReturns(s, s');
  }

  /** Nothing sent, nothing confirmed, no chair gone. */
  ghost predicate Empty(s: State) {
    && s.sent == [] && s.phase == [] && s.confirmed == [] && s.boarding == [] && Uncounted(s) == []
    && s.chairs == [] && s.returned == [] && s.permits == MAX_CHAIRS_IN_TRANSIT && s.up.trackers == []
  }

  lemma EmptyTravellers(s: State)
    requires Empty(s) && forall i | 0 <= i < |s.ts| :: s.ts[i].at == Start && s.ts[i].trip == NoTrip
    ensures Phased(s) && Travellers(s)
  {
  }

  lemma EmptyMessages(s: State)
    requires Empty(s)
    ensures Confirmations(s) && Announcements(s) && Tallied(s)
  {
  }

  lemma EmptyTable(s: State)
    requires Empty(s)
    ensures Returns(s) && TableTracks(s)
  {
    assert Ids(s.up.trackers) == {};
    assert Contents(s.up.trackers) == map[];
  }

  lemma EmptyPassengers(s: State)
    requires Empty(s) && forall i | 0 <= i < |s.ts| :: s.ts[i].at == Start && s.ts[i].trip == NoTrip
    ensures PassengersOk(s)
  {
    EmptyTravellers(s);
    EmptyMessages(s);
    EmptyTable(s);
  }

  lemma InitPassengers(c: Config)
    ensures PassengersOk(Init(c))
  {
    EmptyPassengers(Init(c));
  }
}
