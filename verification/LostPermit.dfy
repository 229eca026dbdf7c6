/**
 Why chairs under way must bear different ids, whenever two parties can share a chair. The two
 share the first one; one of them is slow, the other rides on alone until, after seventy-two more
 departures, its chair bears the id of the first one again. The permit of the first chair is then
 lost for ever.
 */
module LostPermit {
  import opened Constants
  import opened ChairTracking
  import opened Pipeline
  import opened Rides
  import opened Sharing
  import Progress

  // ----- histories

  lemma Do(c: Config, tr: seq<State>, step: Step, s': State) returns (tr': seq<State>)
    requires History(c, tr) && Enabled(c, tr[|tr| - 1], step) && s' == Apply(c, tr[|tr| - 1], step)
    ensures History(c, tr') && tr'[|tr'| - 1] == s'
  {
    tr' := tr + [s'];
    NextIs(c, tr[|tr| - 1], step, s');
    forall n | 0 <= n < |tr'| - 1 ensures MovesAt(c, tr', n) {
      if n < |tr| - 1 { assert MovesAt(c, tr, n); }
    }
  }

  lemma NextIs(c: Config, s: State, step: Step, s': State)
    requires Enabled(c, s, step) && s' == Apply(c, s, step)
    ensures Next(c, s, s')
  {
  }

  lemma WalkMoves(c: Config, path: seq<State>, n: nat)
    requires Walk(c, path) && n < |path| - 1
    ensures MovesAt(c, path, n)
  {
    assert WalksAt(c, path, n);
    var step :| OfTourist(step) && Enabled(c, path[n], step) && path[n + 1] == Apply(c, path[n], step);
    NextIs(c, path[n], step, path[n + 1]);
  }

  lemma Follow(c: Config, tr: seq<State>, path: seq<State>) returns (tr': seq<State>)
    requires History(c, tr) && Walk(c, path) && path[0] == tr[|tr| - 1]
    ensures History(c, tr') && tr'[|tr'| - 1] == path[|path| - 1]
  {
    tr' := tr + path[1..];
    forall n | 0 <= n < |tr'| - 1 ensures MovesAt(c, tr', n) {
      if n < |tr| - 1 {
        assert MovesAt(c, tr, n);
      } else {
        var m := n - (|tr| - 1);
        assert tr'[n] == path[m] && tr'[n + 1] == path[m + 1];
        WalkMoves(c, path, m);
        assert MovesAt(c, path, m);
      }
    }
  }

  // ----- as long as ids have not come round

  lemma FewAreDistinct(s: State)
    requires |s.chairs| <= TOTAL_CHAIRS
    ensures DistinctIds(s)
  {
    forall j, k | j in Outstanding(s) && k in Outstanding(s) && ChairId(j) == ChairId(k) ensures j == k {
      IdOf(j);
      IdOf(k);
    }
  }

  lemma IdOf(k: nat)
    requires k < TOTAL_CHAIRS
    ensures ChairId(k) == k + 1
  {
  }

  lemma ChairsOnlyGrow(c: Config, s: State, s': State)
    requires Next(c, s, s')
    ensures |s.chairs| <= |s'.chairs|
  {
  }

  lemma {:induction false} FewChairsBefore(c: Config, tr: seq<State>, n: nat, m: nat)
    requires History(c, tr) && n <= m < |tr|
    ensures |tr[n].chairs| <= |tr[m].chairs|
    decreases m
  {
    if n < m {
      FewChairsBefore(c, tr, n, m - 1);
      assert MovesAt(c, tr, m - 1);
      ChairsOnlyGrow(c, tr[m - 1], tr[m]);
    }
  }

  lemma FewChairsRun(c: Config, tr: seq<State>)
    requires History(c, tr) && |tr[|tr| - 1].chairs| <= TOTAL_CHAIRS
    ensures Run(c, tr)
  {
    forall n | 0 <= n < |tr| - 1 ensures StepsAt(c, tr, n) {
      assert MovesAt(c, tr, n);
      FewChairsBefore(c, tr, n, |tr| - 1);
      FewAreDistinct(tr[n]);
    }
  }

  // ----- a lone ride

  lemma LeavesAlone(c: Config, tr: seq<State>, i: nat) returns (tr': seq<State>)
    requires History(c, tr) && Ready(c, tr[|tr| - 1]) && Welcome(c, tr[|tr| - 1], i)
    ensures History(c, tr') && tr'[|tr'| - 1] == Leaving(tr[|tr| - 1], i)
  {
    var s := tr[|tr| - 1];
    var path := AsksAlone(c, s, i);
    tr' := Follow(c, tr, path);
    LoadingIs(c, s, i);
    tr' := Do(c, tr', Receive, Grasped(s, i));
    tr' := Do(c, tr', Decide(false), Loaded(s, i));
    LeavingIs(c, s, i);
    tr' := Do(c, tr', Interrupt, Leaving(s, i));
  }

  lemma ReturnsAlone(c: Config, tr: seq<State>, s: State, i: nat) returns (tr': seq<State>)
    requires History(c, tr) && Ready(c, s) && Welcome(c, s, i) && tr[|tr| - 1] == Left(s, i)
    ensures History(c, tr') && tr'[|tr'| - 1] == Returned(s, i)
  {
    TellingIs(c, s, i);
    tr' := Do(c, tr, Confirm, Told(s, i));
    var path := FliesOff(c, s, i);
    tr' := Follow(c, tr', path);
    path := FliesBack(c, s, i);
    tr' := Follow(c, tr', path);
  }

  /** A lone rider has been counted at the top. */
  function Back(s: State, i: nat): State
    requires i < |s.ts|
  {
    var o := Track(s.up.trackers, Arrival(s.low.number, 1));
    Returned(s, i).(arrivals := [], up := Upper(None, o.table),
                    permits := if o.posted then s.permits else s.permits - 1,
                    phase := s.phase + [Counted(|s.chairs|)], chairs := s.chairs + [OwnChair(s, i, 1)],
                    returned := if o.posted then s.returned + [|s.chairs|] else s.returned)
  }

  /** Its arrival is in the upper worker's hand. */
  function AtTop(s: State, i: nat): State
    requires i < |s.ts|
  {
    Returned(s, i).(arrivals := [],
                    up := s.up.(hand := Some(ArrivalMsg(|s.sent|, i, s.low.number, 1))))
  }

  lemma CountingAloneIs(c: Config, s: State, i: nat)
    requires Ready(c, s) && Welcome(c, s, i) && s.arrivals == [] && s.up.hand.None?
    ensures Enabled(c, Returned(s, i), ReceiveArrival) && Apply(c, Returned(s, i), ReceiveArrival) == AtTop(s, i)
    ensures Enabled(c, AtTop(s, i), CountArrival) && Apply(c, AtTop(s, i), CountArrival) == Back(s, i)
  {
    var r, a, k := Returned(s, i), ArrivalMsg(|s.sent|, i, s.low.number, 1), |s.chairs|;
    assert r.phase[|s.sent| := Counted(k)] == Back(s, i).phase;
    assert r.chairs[k := OwnChair(s, i, 1)] == Back(s, i).chairs;
    CountingIs(c, r, a, k, Back(s, i));
  }

  lemma CountsAlone(c: Config, tr: seq<State>, s: State, i: nat) returns (tr': seq<State>)
    requires History(c, tr) && Ready(c, s) && Welcome(c, s, i) && s.arrivals == [] && s.up.hand.None?
    requires tr[|tr| - 1] == Returned(s, i)
    ensures History(c, tr') && tr'[|tr'| - 1] == Back(s, i)
  {
    CountingAloneIs(c, s, i);
    tr' := Do(c, tr, ReceiveArrival, AtTop(s, i));
    tr' := Do(c, tr', CountArrival, Back(s, i));
  }

  lemma RidesAlone(c: Config, tr: seq<State>, i: nat) returns (tr': seq<State>)
    requires History(c, tr) && Ready(c, tr[|tr| - 1]) && Welcome(c, tr[|tr| - 1], i)
    requires tr[|tr| - 1].arrivals == [] && tr[|tr| - 1].up.hand.None?
    ensures History(c, tr') && tr'[|tr'| - 1] == Back(tr[|tr| - 1], i)
  {
    var s := tr[|tr| - 1];
    tr' := LeavesAlone(c, tr, i);
    LeavingIs(c, s, i);
    tr' := Do(c, tr', Depart(0), Left(s, i));
    tr' := ReturnsAlone(c, tr', s, i);
    tr' := CountsAlone(c, tr', s, i);
  }

  // ----- two share the first chair

  function Slots(c: Config, i: nat, j: nat): int
    requires CanShare(c, i, j)
  {
    c.parties[i].chairSlots + c.parties[j].chairSlots
  }

  /** Both have asked for a seat. */
  function BothAsk(c: Config, i: nat, j: nat): State
    requires CanShare(c, i, j)
  {
    Asked(Asked(Init(c), i), j)
  }

  function ReqI(c: Config, i: nat): Req
    requires i < |c.parties|
  {
    Req(0, i, c.parties[i].chairSlots)
  }

  function ReqJ(c: Config, j: nat): Req
    requires j < |c.parties|
  {
    Req(1, j, c.parties[j].chairSlots)
  }

  lemma BothEnter(c: Config, i: nat, j: nat) returns (tr: seq<State>)
    requires ValidConfig(c) && CanShare(c, i, j)
    ensures History(c, tr) && tr[|tr| - 1] == BothAsk(c, i, j)
  {
    tr := [Init(c)];
    var path := Asks(c, Init(c), i, c.parties[i]);
    tr := Follow(c, tr, path);
    path := Asks(c, Asked(Init(c), i), j, c.parties[j]);
    tr := Follow(c, tr, path);
  }

  function CauseFor(c: Config, i: nat, j: nat): Cause
    requires CanShare(c, i, j)
  {
    if Slots(c, i, j) >= CHAIR_CAPACITY then Full else Interrupted
  }

  /** Their chair is about to leave, full or not. */
  function BothLoaded(c: Config, i: nat, j: nat): State
    requires CanShare(c, i, j)
  {
    BothAsk(c, i, j).(queue := [],
      low := Lower(Departing(CauseFor(c, i, j)), [ReqI(c, i), ReqJ(c, j)], Slots(c, i, j), 1))
  }

  lemma Loads(c: Config, i: nat, j: nat) returns (tr: seq<State>)
    requires ValidConfig(c) && CanShare(c, i, j)
    ensures History(c, tr) && tr[|tr| - 1] == BothLoaded(c, i, j)
  {
    var s, ri, rj := BothAsk(c, i, j), ReqI(c, i), ReqJ(c, j);
    var mi, mj := PlatformMsg(2, ri), PlatformMsg(2, rj);
    tr := BothEnter(c, i, j);
    assert s.queue == [mi] + [mj] && [mj] == [mj] + [];
    ReceiveIs(c, s, mi, [mj]);
    var s1 := s.(queue := [mj], low := Lower(InHand(ri), [], 0, 1));
    tr := Do(c, tr, Receive, s1);
    BufferIs(c, s1, ri);
    var s2 := s.(queue := [mj], low := Lower(Loop, [ri], ri.slots, 1));
    tr := Do(c, tr, Decide(false), s2);
    ReceiveIs(c, s2, mj, []);
    var s3 := s.(queue := [], low := Lower(InHand(rj), [ri], ri.slots, 1));
    tr := Do(c, tr, Receive, s3);
    BufferIs(c, s3, rj);
    tr := LoadsLast(c, tr, i, j, s3);
  }

  lemma LoadsLast(c: Config, tr: seq<State>, i: nat, j: nat, s: State) returns (tr': seq<State>)
    requires ValidConfig(c) && CanShare(c, i, j) && History(c, tr) && tr[|tr| - 1] == s
    requires s == BothAsk(c, i, j).(queue := [],
                    low := Lower(InHand(ReqJ(c, j)), [ReqI(c, i)], c.parties[i].chairSlots, 1))
    ensures History(c, tr') && tr'[|tr'| - 1] == BothLoaded(c, i, j)
  {
    BufferIs(c, s, ReqJ(c, j));
    assert [ReqI(c, i)] + [ReqJ(c, j)] == [ReqI(c, i), ReqJ(c, j)];
    var full := Slots(c, i, j) >= CHAIR_CAPACITY;
    var loaded := BothLoaded(c, i, j).(low := BothLoaded(c, i, j).low.(pc := if full then Departing(Full) else Loop));
    tr' := Do(c, tr, Decide(false), loaded);
    if !full { tr' := Do(c, tr', Interrupt, BothLoaded(c, i, j)); }
  }

  function FirstChair(c: Config, i: nat, j: nat, counted: nat): Chair
    requires CanShare(c, i, j)
  {
    Chair(0, 2, Slots(c, i, j), CauseFor(c, i, j), 0, counted)
  }

  function WordI(i: nat): BoardingMsg { BoardingMsg(0, i, 1, 2, 0) }

  function WordJ(j: nat): BoardingMsg { BoardingMsg(1, j, 1, 2, 0) }

  function BothTold(c: Config, i: nat, j: nat): State
    requires CanShare(c, i, j)
  {
    BothAsk(c, i, j).(queue := [], low := Lower(Loop, [], 0, 2), permits := 35, chairs := [FirstChair(c, i, j, 0)],
                      confirmed := [ReqI(c, i), ReqJ(c, j)], phase := [Confirmed(0), Confirmed(0)],
                      boarding := [WordI(i), WordJ(j)])
  }

  lemma Tells(c: Config, i: nat, j: nat) returns (tr: seq<State>)
    requires ValidConfig(c) && CanShare(c, i, j)
    ensures History(c, tr) && tr[|tr| - 1] == BothTold(c, i, j)
  {
    tr := Loads(c, i, j);
    var s := BothLoaded(c, i, j).(permits := 35, chairs := [FirstChair(c, i, j, 0)],
               low := BothLoaded(c, i, j).low.(pc := Confirming(CauseFor(c, i, j), 0, 0)));
    tr := Do(c, tr, Depart(0), s);
    var s1 := s.(low := s.low.(pc := Confirming(CauseFor(c, i, j), 1, 0)), confirmed := [ReqI(c, i)],
                 boarding := [WordI(i)], phase := [Confirmed(0), Requested]);
    tr := Do(c, tr, Confirm, s1);
    tr := Do(c, tr, Confirm, BothTold(c, i, j));
  }

  /** One of the two has come back and been counted, the other is still riding. */
  function OneBack(c: Config, i: nat, j: nat): State
    requires CanShare(c, i, j)
  {
    BothTold(c, i, j).(ts := Init(c).ts[i := Passenger(c.parties[i], Ride, WordI(i))], free := Init(c).free,
                       boarding := [], phase := [Riding(0), Counted(0)], chairs := [FirstChair(c, i, j, 1)],
                       up := Upper(None, [Tracker(1, 2, 1)]))
  }

  function OneDown(c: Config, i: nat, j: nat): State
    requires CanShare(c, i, j)
  {
    OneBack(c, i, j).(phase := [Riding(0), Announced(0)], chairs := [FirstChair(c, i, j, 0)], up := Upper(None, []),
                      arrivals := [ArrivalMsg(1, j, 1, 2)])
  }

  lemma FliesAndReturns(c: Config, i: nat, j: nat) returns (tr: seq<State>)
    requires ValidConfig(c) && CanShare(c, i, j)
    ensures History(c, tr) && tr[|tr| - 1] == OneDown(c, i, j)
  {
    tr := Tells(c, i, j);
    var s := BothTold(c, i, j);
    var path := TakesOff(c, s, i);
    tr := Follow(c, tr, path);
    path := TakesOff(c, Aloft(s, i), j);
    tr := Follow(c, tr, path);
    var up := Aloft(Aloft(s, i), j);
    path := ComesDown(c, up, j);
    tr := Follow(c, tr, path);
    DownIs(c, i, j);
  }

  lemma DownIs(c: Config, i: nat, j: nat)
    requires ValidConfig(c) && CanShare(c, i, j)
    ensures Down(Aloft(Aloft(BothTold(c, i, j), i), j), j) == OneDown(c, i, j)
  {
    var d := Down(Aloft(Aloft(BothTold(c, i, j), i), j), j);
    assert d.ts == OneDown(c, i, j).ts;
    assert d.phase == OneDown(c, i, j).phase;
  }

  lemma FirstOfTwoCounted()
    ensures Track([], Arrival(1, 2)) == Outcome([Tracker(1, 2, 1)], false)
  {
    assert Find([], 1) == 0;
    assert Lookup([], Arrival(1, 2)) == [Tracker(1, 2, 0)];
    AloneInTable(Tracker(1, 2, 0));
  }

  lemma OneComesBack(c: Config, i: nat, j: nat) returns (tr: seq<State>)
    requires ValidConfig(c) && CanShare(c, i, j)
    ensures History(c, tr) && tr[|tr| - 1] == OneBack(c, i, j)
  {
    tr := FliesAndReturns(c, i, j);
    var s, a := OneDown(c, i, j), ArrivalMsg(1, j, 1, 2);
    FirstOfTwoCounted();
    assert s.phase[1 := Counted(0)] == OneBack(c, i, j).phase;
    assert s.chairs[0 := FirstChair(c, i, j, 1)] == OneBack(c, i, j).chairs;
    CountingIs(c, s, a, 0, OneBack(c, i, j));
    tr := Do(c, tr, ReceiveArrival, s.(arrivals := [], up := s.up.(hand := Some(a))));
    tr := Do(c, tr, CountArrival, OneBack(c, i, j));
  }

  // ----- the ids come round

  /** The first chair is still under way, and all of the rider's have arrived. */
  ghost predicate Slow(c: Config, s: State, i: nat, j: nat) {
    && CanShare(c, i, j) && Ready(c, s) && Welcome(c, s, j) && s.arrivals == [] && s.up.hand.None? && s.permits == 35
    && i < |s.ts| && s.ts[i] == Passenger(c.parties[i], Ride, WordI(i))
    && 2 <= |s.sent| && s.phase[0] == Riding(0)
    && 1 <= |s.chairs| && s.chairs[0] == FirstChair(c, i, j, 1)
    && (forall k | 0 < k < |s.chairs| :: s.chairs[k].counted >= s.chairs[k].size)
    && s.low.number == ChairId(|s.chairs|)
  }

  lemma RideCounted(num: int)
    requires num != 1
    ensures Track([Tracker(1, 2, 1)], Arrival(num, 1)) == Outcome([Tracker(1, 2, 1)], true)
  {
    var ts := [Tracker(1, 2, 1)];
    assert Find(ts, num) == 1 by { assert ts[1..] == []; }
    assert Lookup(ts, Arrival(num, 1)) == [Tracker(1, 2, 1), Tracker(num, 1, 0)];
    assert SwapAndPop([Tracker(1, 2, 1), Tracker(num, 1, 1)], 1) == ts;
  }

  lemma NextId(k: nat)
    ensures NextNumber(ChairId(k)) == ChairId(k + 1)
  {
  }

  lemma BackIsSlow(c: Config, s: State, i: nat, j: nat)
    requires Slow(c, s, i, j) && Track(s.up.trackers, Arrival(s.low.number, 1)).posted
    ensures Slow(c, Back(s, j), i, j)
  {
    NextId(|s.chairs|);
  }

  lemma RidesOnce(c: Config, tr: seq<State>, i: nat, j: nat) returns (tr': seq<State>)
    requires History(c, tr) && Slow(c, tr[|tr| - 1], i, j) && tr[|tr| - 1].up.trackers == [Tracker(1, 2, 1)]
    requires |tr[|tr| - 1].chairs| < TOTAL_CHAIRS
    ensures History(c, tr') && Slow(c, tr'[|tr'| - 1], i, j) && tr'[|tr'| - 1].up.trackers == [Tracker(1, 2, 1)]
    ensures |tr'[|tr'| - 1].chairs| == |tr[|tr| - 1].chairs| + 1
  {
    var s := tr[|tr| - 1];
    tr' := RidesAlone(c, tr, j);
    IdOf(|s.chairs|);
    RideCounted(s.low.number);
    BackIsSlow(c, s, i, j);
  }

  lemma {:induction false} RidesOn(c: Config, i: nat, j: nat, n: nat) returns (tr: seq<State>)
    requires ValidConfig(c) && CanShare(c, i, j) && 1 <= n <= TOTAL_CHAIRS
    ensures History(c, tr) && Slow(c, tr[|tr| - 1], i, j) && tr[|tr| - 1].up.trackers == [Tracker(1, 2, 1)]
    ensures |tr[|tr| - 1].chairs| == n
  {
    if n == 1 {
      tr := OneComesBack(c, i, j);
      IdOf(1);
    } else {
      tr := RidesOn(c, i, j, n - 1);
      tr := RidesOnce(c, tr, i, j);
    }
  }

  /** For any two parties that can share a chair there is a run to a state in which two chairs under
      way bear the same id: the first one, with a passenger still on it, and the seventy-third. */
  lemma IdsComeRound(c: Config, i: nat, j: nat) returns (tr: seq<State>)
    requires ValidConfig(c) && CanShare(c, i, j)
    ensures Run(c, tr)
    ensures var s := tr[|tr| - 1]; 0 in Outstanding(s) && 72 in Outstanding(s) && ChairId(0) == ChairId(72)
  {
    tr := RidesOn(c, i, j, TOTAL_CHAIRS);
    var s := tr[|tr| - 1];
    tr := LeavesAlone(c, tr, j);
    FewChairsRun(c, tr);
    FewAreDistinct(Leaving(s, j));
    LeavingIs(c, s, j);
    Progress.ExtendRun(c, tr, Depart(0), Left(s, j));
    tr := tr + [Left(s, j)];
    assert Left(s, j).chairs[0] == s.chairs[0] && Left(s, j).chairs[72] == OwnChair(s, j, 0);
  }

  // ----- and a permit is lost

  lemma WrongChairCompleted()
    ensures Track([Tracker(1, 2, 1)], Arrival(1, 1)) == Outcome([], true)
  {
    assert Find([Tracker(1, 2, 1)], 1) == 0;
    AloneInTable(Tracker(1, 2, 1));
  }

  /** The rider's arrival completes the entry of the first chair. */
  lemma LastRide(c: Config, i: nat, j: nat) returns (tr: seq<State>)
    requires ValidConfig(c) && CanShare(c, i, j)
    ensures History(c, tr) && Slow(c, tr[|tr| - 1], i, j) && tr[|tr| - 1].up.trackers == []
  {
    tr := RidesOn(c, i, j, TOTAL_CHAIRS);
    var s := tr[|tr| - 1];
    assert s.low.number == 1;
    tr := RidesAlone(c, tr, j);
    WrongChairCompleted();
    BackIsSlow(c, s, i, j);
  }

  /** The slow passenger arrives, and opens a new entry for a chair that is already complete. */
  function Lost(c: Config, s: State, i: nat, j: nat): State
    requires Slow(c, s, i, j)
  {
    Down(s, i).(arrivals := [], up := Upper(None, [Tracker(1, 2, 1)]), phase := s.phase[0 := Counted(0)],
                chairs := s.chairs[0 := FirstChair(c, i, j, 2)])
  }

  lemma SlowOneArrives(c: Config, tr: seq<State>, i: nat, j: nat) returns (tr': seq<State>)
    requires History(c, tr) && Slow(c, tr[|tr| - 1], i, j) && tr[|tr| - 1].up.trackers == []
    ensures History(c, tr') && tr'[|tr'| - 1] == Lost(c, tr[|tr| - 1], i, j)
  {
    var s := tr[|tr| - 1];
    var d, a := Down(s, i), ArrivalMsg(0, i, 1, 2);
    var path := ComesDown(c, s, i);
    tr' := Follow(c, tr, path);
    FirstOfTwoCounted();
    assert d.phase[0 := Counted(0)] == Lost(c, s, i, j).phase;
    CountingIs(c, d, a, 0, Lost(c, s, i, j));
    tr' := Do(c, tr', ReceiveArrival, d.(arrivals := [], up := d.up.(hand := Some(a))));
    tr' := Do(c, tr', CountArrival, Lost(c, s, i, j));
  }

  /** For any two parties that can share a chair there is a history after which every chair has
      arrived in full, and one of the 36 permits is missing. */
  lemma PermitIsLost(c: Config, i: nat, j: nat) returns (tr: seq<State>)
    requires ValidConfig(c) && CanShare(c, i, j)
    ensures History(c, tr)
    ensures var s := tr[|tr| - 1];
            Outstanding(s) == {} && s.permits == 35 && s.arrivals == [] && s.up.hand.None?
  {
    tr := LastRide(c, i, j);
    var s := tr[|tr| - 1];
    tr := SlowOneArrives(c, tr, i, j);
    assert Outstanding(Lost(c, s, i, j)) == {};
  }

  /** Chairs are conserved in every history, without any assumption about their ids, if and only if
      no two parties that fit the station fit one chair together. */
  lemma AlwaysConservedIff(c: Config)
    requires ValidConfig(c)
    ensures AlwaysConserved(c) <==> NobodyShares(c)
  {
    if NobodyShares(c) {
      NobodySharesConserves(c);
    } else {
      var i: nat, j: nat :| CanShare(c, i, j);
      var tr := PermitIsLost(c, i, j);
      assert tr[|tr| - 1].permits + |Outstanding(tr[|tr| - 1])| == 35;
    }
  }
}
