/**
 Counting one arrival: under distinct ids of the outstanding chairs the tracking table credits
 the right chair, and returns the permit of a chair at the last of its arrivals.
 */
module ArrivalStep {
  import opened Constants
  import opened ChairTracking
  import opened Pipeline
  import opened Passengers
  import opened PassengerSteps

  // ----- how many chairs are outstanding

  lemma {:induction false} ListCount(xs: seq<nat>, ks: set<nat>)
    requires forall m, n | 0 <= m < n < |xs| :: xs[m] != xs[n]
    requires forall k: nat :: k in xs <==> k in ks
    ensures |ks| == |xs|
  {
    if xs == [] {
      assert ks == {};
    } else {
      var front, last := xs[..|xs| - 1], xs[|xs| - 1];
      assert forall k: nat :: k in xs <==> k in front || k == last;
      ListCount(front, ks - {last});
    }
  }

  lemma {:induction false} RangeCount(n: nat, ks: set<nat>)
    requires forall k: nat :: k in ks <==> k < n
    ensures |ks| == n
  {
    if n == 0 {
      assert ks == {};
    } else {
      RangeCount(n - 1, ks - {n - 1});
    }
  }

  lemma OutstandingIs(s: State)
    requires |s.phase| == |s.sent| && Tallied(s)
    ensures forall k: nat :: k in Outstanding(s) <==> k < |s.chairs| && !Complete(s, k)
  {
    forall k | 0 <= k < |s.chairs| ensures s.chairs[k].counted <= s.chairs[k].size {
      TallyBounds(s.phase[s.chairs[k].first..s.chairs[k].first + s.chairs[k].size]);
    }
  }

  /** SEM_CHAIRS plus the chairs dispatched but not fully arrived is always 36. */
  lemma PermitsConserved(s: State)
    requires |s.phase| == |s.sent| && Tallied(s) && Returns(s)
    ensures s.permits + |Outstanding(s)| == MAX_CHAIRS_IN_TRANSIT
    ensures 0 <= s.permits
  {
    OutstandingIs(s);
    var done := set k | 0 <= k < |s.chairs| && Complete(s, k);
    RangeCount(|s.chairs|, Outstanding(s) + done);
    assert forall k: nat :: k in s.returned <==> k in done;
    ListCount(s.returned, done);
  }

  /** The chairs in the table are outstanding ones, so the table is never near its 64 entries. */
  lemma TableHasRoom(s: State, k: nat)
    requires |s.phase| == |s.sent| && Tallied(s) && Returns(s) && TableTracks(s)
    requires k in Outstanding(s)
    ensures |Contents(s.up.trackers).Keys + {ChairId(k)}| <= MAX_CHAIRS_IN_TRANSIT
  {
    var ids := set j | j in Outstanding(s) :: ChairId(j);
    var m := Contents(s.up.trackers);
    forall id | id in m ensures id in ids {
      var j: nat :| EntryOf(s, m, id, j);
      assert j in Outstanding(s) && id == ChairId(j);
    }
    assert m.Keys + {ChairId(k)} <= ids;
    PermitsConserved(s);
    ImageCount(Outstanding(s), ids);
    SubsetCount(m.Keys + {ChairId(k)}, ids);
  }

  lemma {:induction false} ImageCount(ks: set<nat>, ids: set<int>)
    requires ids == set j | j in ks :: ChairId(j)
    ensures |ids| <= |ks|
  {
    if ks == {} {
      assert ids == {};
    } else {
      var k :| k in ks;
      var rest := set j | j in ks - {k} :: ChairId(j);
      ImageCount(ks - {k}, rest);
      assert ids == rest + {ChairId(k)};
    }
  }

  lemma {:induction false} SubsetCount(a: set<int>, b: set<int>)
    requires a <= b
    ensures |a| <= |b|
  {
    assert b == a + (b - a);
  }

  // ----- the arrival

  /** The arrival in the upper worker's hand, its request and its chair. */
  ghost predicate Arriving(s: State, a: ArrivalMsg, k: nat) {
    && s.up.hand == Some(a) && |s.phase| == |s.sent| && a.serial < |s.phase|
    && s.phase[a.serial] == Announced(k) && ToldOf(s.chairs, k, a.chairId, a.heads)
    && s.chairs[k].first <= a.serial < s.chairs[k].first + s.chairs[k].size
  }

  lemma ArrivalIsOutstanding(s: State, a: ArrivalMsg, k: nat)
    requires Arriving(s, a, k) && Tallied(s)
    ensures k in Outstanding(s)
  {
    var c := s.chairs[k];
    var stretch := s.phase[c.first..c.first + c.size];
    assert !stretch[a.serial - c.first].Counted?;
    TallyBounds(stretch);
  }

  /** The table knows the chair just as the log does. */
  lemma TableAgrees(s: State, a: ArrivalMsg, k: nat)
    requires Arriving(s, a, k) && Tallied(s) && TableTracks(s) && DistinctIds(s)
    ensures var m := Contents(s.up.trackers);
            (if a.chairId in m then m[a.chairId] else Progress(a.heads, 0))
            == Progress(s.chairs[k].size, s.chairs[k].counted)
  {
    var m := Contents(s.up.trackers);
    ArrivalIsOutstanding(s, a, k);
    if a.chairId in m {
      var j: nat :| EntryOf(s, m, a.chairId, j);
      assert j in Outstanding(s) && ChairId(j) == ChairId(k);
    } else {
      assert !PartlyCounted(s, k);
    }
  }

  /** An arrival has been credited to a chair of which `p` was known, and its permit posted if
      it was the last. */
  ghost predicate Credited(o: Outcome<seq<Tracker>>, m: map<int, Progress>, id: int, p: Progress) {
    && Valid(o.table)
    && o.posted == (p.arrived + 1 == p.expected)
    && Contents(o.table) == if o.posted then m - {id} else m[id := Progress(p.expected, p.arrived + 1)]
  }

  lemma MapCredits(m: map<int, Progress>, a: Arrival, p: Progress)
    requires (if a.id in m then m[a.id] else Progress(a.heads, 0)) == p && p.arrived < p.expected
    ensures TrackInMap(m, a).posted == (p.arrived + 1 == p.expected)
    ensures TrackInMap(m, a).table ==
              if p.arrived + 1 == p.expected then m - {a.id} else m[a.id := Progress(p.expected, p.arrived + 1)]
  {
  }

  lemma TrackAgrees(ts: seq<Tracker>, a: Arrival, m: map<int, Progress>, p: Progress)
    requires Valid(ts) && a.heads >= 1 && m == Contents(ts) && |m.Keys + {a.id}| <= MAX_ACTIVE_CHAIRS
    requires (if a.id in m then m[a.id] else Progress(a.heads, 0)) == p && p.arrived < p.expected
    ensures Credited(Track(ts, a), m, a.id, p)
  {
    TrackKeepsValid(ts, a);
    TrackRefinesMap(ts, a);
    MapCredits(m, a, p);
  }

  lemma ArrivalHasHeads(s: State, a: ArrivalMsg, k: nat)
    requires Arriving(s, a, k) && Tallied(s)
    ensures a.heads >= 1 && s.chairs[k].counted < s.chairs[k].size
  {
    ArrivalIsOutstanding(s, a, k);
  }

  /** The permit is returned at the last arrival of the chair, and only then. */
  lemma PostedAtLast(s: State, a: ArrivalMsg, k: nat)
    requires Arriving(s, a, k) && Tallied(s) && Returns(s) && TableTracks(s) && DistinctIds(s)
    ensures Credited(Track(s.up.trackers, Arrival(a.chairId, a.heads)), Contents(s.up.trackers), a.chairId,
                     Progress(s.chairs[k].size, s.chairs[k].counted))
  {
    ArrivalIsOutstanding(s, a, k);
    TableHasRoom(s, k);
    TableAgrees(s, a, k);
    ArrivalHasHeads(s, a, k);
    TrackAgrees(s.up.trackers, Arrival(a.chairId, a.heads), Contents(s.up.trackers),
                Progress(s.chairs[k].size, s.chairs[k].counted));
  }

  // ----- what the arrival keeps

  /** The effect of the arrival on everything but the table. */
  ghost predicate Credits(s: State, s': State, a: ArrivalMsg, k: nat) {
    && k < |s.chairs| && a.serial < |s.phase|
    && s'.chairs == s.chairs[k := s.chairs[k].(counted := s.chairs[k].counted + 1)]
    && s'.phase == s.phase[a.serial := Counted(k)]
    && s'.sent == s.sent && s'.ts == s.ts && s'.boarding == s.boarding && s'.confirmed == s.confirmed
    && Uncounted(s) == [a] + Uncounted(s')
  }

  lemma ApplyCredits(s: State, a: ArrivalMsg, k: nat)
    requires Arriving(s, a, k)
    ensures Credits(s, ApplyCountArrival(s), a, k)
  {
  }

  lemma CountEntries(s: State, s': State, a: ArrivalMsg, k: nat, m: map<int, Progress>, m': map<int, Progress>)
    requires Credits(s, s', a, k) && a.chairId == ChairId(k) && MapTracks(s, m)
    requires DistinctIds(s) && k in Outstanding(s)
    requires m' == if s.chairs[k].counted + 1 == s.chairs[k].size then m - {a.chairId}
                   else m[a.chairId := Progress(s.chairs[k].size, s.chairs[k].counted + 1)]
    ensures MapTracks(s', m')
  {
    forall id | id in m' ensures exists j: nat :: EntryOf(s', m', id, j) {
      if id == a.chairId {
        assert EntryOf(s', m', id, k);
      } else {
        var j: nat :| EntryOf(s, m, id, j);
        assert EntryOf(s', m', id, j);
      }
    }
    forall j: nat | PartlyCounted(s', j) ensures ChairId(j) in m' && EntryOf(s', m', ChairId(j), j) {
      if j != k {
        assert PartlyCounted(s, j) && j in Outstanding(s);
        assert ChairId(j) != a.chairId;
      }
    }
  }

  lemma CreditedTable(s: State, s': State, a: ArrivalMsg, k: nat, o: Outcome<seq<Tracker>>)
    requires Credits(s, s', a, k) && a.chairId == ChairId(k) && TableTracks(s)
    requires DistinctIds(s) && k in Outstanding(s) && s'.up.trackers == o.table
    requires Credited(o, Contents(s.up.trackers), a.chairId, Progress(s.chairs[k].size, s.chairs[k].counted))
    ensures TableTracks(s')
  {
    CountEntries(s, s', a, k, Contents(s.up.trackers), Contents(o.table));
  }

  lemma CountTable(s: State, a: ArrivalMsg, k: nat)
    requires Arriving(s, a, k) && Tallied(s) && Returns(s) && TableTracks(s) && DistinctIds(s)
    ensures TableTracks(ApplyCountArrival(s))
  {
    ApplyCredits(s, a, k);
    PostedAtLast(s, a, k);
    ArrivalIsOutstanding(s, a, k);
    CreditedTable(s, ApplyCountArrival(s), a, k, Track(s.up.trackers, Arrival(a.chairId, a.heads)));
  }

  /** The request of the arrival lies in no other chair's stretch. */
  ghost predicate OnlyChair(s: State, q: nat, k: nat) {
    forall j | 0 <= j < |s.chairs| && j != k :: !(s.chairs[j].first <= q < s.chairs[j].first + s.chairs[j].size)
  }

  lemma CountTally(s: State, s': State, a: ArrivalMsg, k: nat, j: nat)
    requires Credits(s, s', a, k) && Arriving(s, a, k) && Tallied(s) && OnlyChair(s, a.serial, k)
    requires j < |s.chairs|
    ensures s'.chairs[j].counted == Tally(s'.phase[s.chairs[j].first..s.chairs[j].first + s.chairs[j].size])
  {
    TallyOfStretch(s.phase, a.serial, Counted(k), s.chairs[j].first, s.chairs[j].first + s.chairs[j].size);
  }

  lemma CountTallied(s: State, s': State, a: ArrivalMsg, k: nat)
    requires Credits(s, s', a, k) && Arriving(s, a, k) && Tallied(s) && OnlyChair(s, a.serial, k)
    ensures Tallied(s')
  {
    forall j | 0 <= j < |s.chairs|
      ensures s'.chairs[j].counted == Tally(s'.phase[s.chairs[j].first..s.chairs[j].first + s.chairs[j].size])
    {
      CountTally(s, s', a, k, j);
    }
  }

  lemma CountReturns(s: State, a: ArrivalMsg, k: nat)
    requires Arriving(s, a, k) && Tallied(s) && Returns(s) && TableTracks(s) && DistinctIds(s)
    ensures Returns(ApplyCountArrival(s))
  {
    var s' := ApplyCountArrival(s);
    PostedAtLast(s, a, k);
    ArrivalIsOutstanding(s, a, k);
    assert !Complete(s, k);
    forall j: nat ensures j in s'.returned <==> Complete(s', j) {
      assert j in s.returned <==> Complete(s, j);
    }
  }

  lemma CountAnnouncementsMatch(s: State, s': State, a: ArrivalMsg, k: nat, n: nat)
    requires Credits(s, s', a, k) && Arriving(s, a, k) && Announcements(s) && n < |Uncounted(s')|
    ensures AnnouncementOk(s', Uncounted(s')[n])
  {
    var us := Uncounted(s);
    assert us[0] == a && us[n + 1] == Uncounted(s')[n];
    assert AnnouncementOk(s, us[n + 1]);
    assert us[0].serial != us[n + 1].serial;
  }

  lemma CountAnnouncementsCover(s: State, s': State, a: ArrivalMsg, k: nat, p: nat)
    requires Credits(s, s', a, k) && Arriving(s, a, k) && Announcements(s)
    requires p < |s'.sent| && s'.phase[p].Announced?
    ensures InUncounted(s', p)
  {
    var us, us' := Uncounted(s), Uncounted(s');
    assert InUncounted(s, p);
    var n :| 0 <= n < |us| && us[n].serial == p;
    assert us[0] == a;
    assert us'[n - 1] == us[n];
  }

  lemma CountAnnouncements(s: State, s': State, a: ArrivalMsg, k: nat)
    requires Credits(s, s', a, k) && Arriving(s, a, k) && Announcements(s)
    ensures Announcements(s')
  {
    forall n | 0 <= n < |Uncounted(s')| ensures AnnouncementOk(s', Uncounted(s')[n]) {
      CountAnnouncementsMatch(s, s', a, k, n);
    }
    forall p | 0 <= p < |s'.sent| && s'.phase[p].Announced? ensures InUncounted(s', p) {
      CountAnnouncementsCover(s, s', a, k, p);
    }
    var us' := Uncounted(s');
    assert forall n | 0 <= n < |us'| :: us'[n] == Uncounted(s)[n + 1];
  }

  lemma CountTravellers(s: State, s': State, a: ArrivalMsg, k: nat)
    requires Credits(s, s', a, k) && Arriving(s, a, k) && Travellers(s)
    ensures Travellers(s')
  {
    forall i | 0 <= i < |s.ts| ensures TripOk(s', i) {
      assert TripOk(s, i);
    }
  }

  lemma CountPhased(s: State, s': State, a: ArrivalMsg, k: nat)
    requires Credits(s, s', a, k) && Arriving(s, a, k) && Phased(s)
    ensures Phased(s') && HistoryGrows(s, s')
  {
  }

  lemma CountConfirmations(s: State, s': State, a: ArrivalMsg, k: nat)
    requires Credits(s, s', a, k) && Arriving(s, a, k) && Confirmations(s) && HistoryGrows(s, s')
    ensures Confirmations(s')
  {
    KeepConfirmations(s, s');
  }

  lemma CreditsKeepPassengers(s: State, s': State, a: ArrivalMsg, k: nat)
    requires Credits(s, s', a, k) && Arriving(s, a, k) && PassengersOk(s) && OnlyChair(s, a.serial, k)
    requires Returns(s') && TableTracks(s')
    ensures PassengersOk(s')
  {
    CountPhased(s, s', a, k);
    CountTallied(s, s', a, k);
    CountAnnouncements(s, s', a, k);
    CountTravellers(s, s', a, k);
    CountConfirmations(s, s', a, k);
  }

  lemma CountArrivalPassengers(s: State, a: ArrivalMsg, k: nat)
    requires Arriving(s, a, k) && PassengersOk(s) && DistinctIds(s) && OnlyChair(s, a.serial, k)
    ensures PassengersOk(ApplyCountArrival(s))
  {
    ApplyCredits(s, a, k);
    CountTable(s, a, k);
    CountReturns(s, a, k);
    CreditsKeepPassengers(s, ApplyCountArrival(s), a, k);
  }
}
