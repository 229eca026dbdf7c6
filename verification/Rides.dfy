/**
 How a tourist gets about: stretches of the steps of tourists alone, from any state with room for
 them, and what the workers' steps between them come to.
 */
module Rides {
  import opened Constants
  import opened Pipeline
  import opened Gates
  import ChairTracking

  /** A step of a tourist that sees no emergency. */
  predicate OfTourist(step: Step) {
    || step.Move? || (step.ReadStop? && !step.emergency)
    || step.SendRequest? || step.TakeConfirmation? || step.SendArrival?
  }

  ghost predicate WalksAt(c: Config, path: seq<State>, n: nat)
    requires n < |path| - 1
  {
    exists step :: OfTourist(step) && Enabled(c, path[n], step) && path[n + 1] == Apply(c, path[n], step)
  }

  /** A stretch of steps of tourists. */
  ghost predicate Walk(c: Config, path: seq<State>) {
    |path| > 0 && forall n | 0 <= n < |path| - 1 :: WalksAt(c, path, n)
  }

  lemma Go(c: Config, path: seq<State>, step: Step, s': State) returns (path': seq<State>)
    requires Walk(c, path) && OfTourist(step) && Enabled(c, path[|path| - 1], step)
    requires s' == Apply(c, path[|path| - 1], step)
    ensures Walk(c, path') && path'[0] == path[0] && path'[|path'| - 1] == s'
  {
    path' := path + [s'];
    LastStep(c, path', step);
    forall n | 0 <= n < |path'| - 1 ensures WalksAt(c, path', n) {
      if n < |path| - 1 {
        assert WalksAt(c, path, n);
        SameStep(c, path, path', n);
      }
    }
  }

  lemma LastStep(c: Config, path: seq<State>, step: Step)
    requires |path| >= 2 && OfTourist(step) && Enabled(c, path[|path| - 2], step)
    requires path[|path| - 1] == Apply(c, path[|path| - 2], step)
    ensures WalksAt(c, path, |path| - 2)
  {
  }

  lemma SameStep(c: Config, path: seq<State>, path': seq<State>, n: nat)
    requires n < |path| - 1 && n < |path'| - 1 && path'[n] == path[n] && path'[n + 1] == path[n + 1]
    requires WalksAt(c, path, n)
    ensures WalksAt(c, path', n)
  {
  }

  // ----- moving about

  /** A state in which tourist `i` is `t`, with these permits free and this many counted in. */
  function With(s: State, i: nat, t: Tourist, f: Free, n: int): State
    requires i < |s.ts|
  {
    s.(ts := s.ts[i := t], free := f, count := n)
  }

  lemma MoveTo(c: Config, path: seq<State>, s: State, i: nat, t: Tourist, f: Free, n: int, to: Place)
    returns (path': seq<State>)
    requires Walk(c, path) && i < |s.ts| && path[|path| - 1] == With(s, i, t, f, n) && Follows(t.at, to)
    requires OperationAt(t).Wait? ==> OperationAt(t).n <= Get(f, OperationAt(t).gate)
    ensures Walk(c, path') && path'[0] == path[0]
    ensures path'[|path'| - 1] ==
              With(s, i, t.(at := to), FreeAfter(f, OperationAt(t)), n + ChangeBy(InCount, OperationAt(t)))
  {
    var s' := With(s, i, t.(at := to), FreeAfter(f, OperationAt(t)), n + ChangeBy(InCount, OperationAt(t)));
    assert s'.ts == s.ts[i := t][i := t.(at := to)];
    path' := Go(c, path, Move(i, to), s');
  }

  function Idler(p: Party, at: Place): Tourist {
    Tourist(p, at, NoTrip)
  }

  /** Room for a party at the gates, in the station and on the platform. */
  predicate Room(f: Free, p: Party) {
    f.entry >= 1 && f.station >= p.stationSlots && f.platform >= 1
  }

  lemma EntersStation(c: Config, path: seq<State>, i: nat, p: Party) returns (path': seq<State>)
    requires Walk(c, path) && i < |path[|path| - 1].ts| && path[|path| - 1].ts[i] == Idler(p, Start)
    requires Room(path[|path| - 1].free, p)
    ensures Walk(c, path') && path'[0] == path[0]
    ensures var s := path[|path| - 1];
            path'[|path'| - 1] == With(s, i, Idler(p, Choose), s.free.(station := s.free.station - p.stationSlots),
                                       s.count + p.stationSlots)
  {
    var s, f, k, g := path[|path| - 1], path[|path| - 1].free, p.stationSlots, GateOf(p);
    var inside := f.(station := f.station - k);
    assert s.ts == s.ts[i := Idler(p, Start)];
    path' := MoveTo(c, path, s, i, Idler(p, Start), f, s.count, EntryGate);
    path' := MoveTo(c, path', s, i, Idler(p, EntryGate), f, s.count, StationDoor);
    path' := MoveTo(c, path', s, i, Idler(p, StationDoor), f.(entry := f.entry - g), s.count, CountIn);
    path' := MoveTo(c, path', s, i, Idler(p, CountIn), inside.(entry := f.entry - g), s.count, EntryOut);
    path' := MoveTo(c, path', s, i, Idler(p, EntryOut), inside.(entry := f.entry - g), s.count + k, Choose);
  }

  /** A party goes through the gates to the platform, where it looks at emergency_stop. */
  lemma ComesToPlatform(c: Config, path: seq<State>, i: nat, p: Party) returns (path': seq<State>)
    requires Walk(c, path) && i < |path[|path| - 1].ts| && path[|path| - 1].ts[i] == Idler(p, Start)
    requires Room(path[|path| - 1].free, p)
    ensures Walk(c, path') && path'[0] == path[0]
    ensures var s := path[|path| - 1];
            path'[|path'| - 1] ==
              With(s, i, Idler(p, StopCheck), s.free.(platform := s.free.platform - 1), s.count)
  {
    var s, f, k := path[|path| - 1], path[|path| - 1].free, p.stationSlots;
    var inside := f.(station := f.station - k);
    path' := EntersStation(c, path, i, p);
    path' := MoveTo(c, path', s, i, Idler(p, Choose), inside, s.count + k, PlatformGate);
    path' := MoveTo(c, path', s, i, Idler(p, PlatformGate), inside, s.count + k, CountOut);
    path' := MoveTo(c, path', s, i, Idler(p, CountOut), inside.(platform := f.platform - 1), s.count + k, StationOut);
    path' := MoveTo(c, path', s, i, Idler(p, StationOut), inside.(platform := f.platform - 1), s.count, StopCheck);
  }

  /** It sees no emergency, and asks for a seat next. */
  lemma Enters(c: Config, path: seq<State>, i: nat, p: Party) returns (path': seq<State>)
    requires Walk(c, path) && i < |path[|path| - 1].ts| && path[|path| - 1].ts[i] == Idler(p, Start)
    requires Room(path[|path| - 1].free, p)
    ensures Walk(c, path') && path'[0] == path[0]
    ensures var s := path[|path| - 1];
            path'[|path'| - 1] ==
              With(s, i, Idler(p, Request), s.free.(platform := s.free.platform - 1), s.count)
  {
    var s, out := path[|path| - 1], path[|path| - 1].free.(platform := path[|path| - 1].free.platform - 1);
    path' := ComesToPlatform(c, path, i, p);
    assert With(s, i, Idler(p, Request), out, s.count).ts == s.ts[i := Idler(p, StopCheck)][i := Idler(p, Request)];
    path' := Go(c, path', ReadStop(i, false), With(s, i, Idler(p, Request), out, s.count));
  }

  /** What tourist `i` asks for next. */
  function Wish(s: State, i: nat): Req
    requires i < |s.ts|
  {
    Req(|s.sent|, i, s.ts[i].party.chairSlots)
  }

  /** Tourist `i` waits on the platform for its seat. */
  function Asked(s: State, i: nat): State
    requires i < |s.ts|
  {
    s.(ts := s.ts[i := Tourist(s.ts[i].party, Await, Waiting(|s.sent|))],
       free := s.free.(platform := s.free.platform - 1),
       queue := s.queue + [PlatformMsg(2, Wish(s, i))],
       sent := s.sent + [Wish(s, i)], phase := s.phase + [Requested], requeues := s.requeues + [0])
  }

  lemma Asks(c: Config, s: State, i: nat, p: Party) returns (path: seq<State>)
    requires i < |s.ts| && s.ts[i] == Idler(p, Start) && Room(s.free, p)
    ensures Walk(c, path) && path[0] == s && path[|path| - 1] == Asked(s, i)
  {
    path := Enters(c, [s], i, p);
    assert Asked(s, i).ts == s.ts[i := Idler(p, Request)][i := Tourist(p, Await, Waiting(|s.sent|))];
    path := Go(c, path, SendRequest(i), Asked(s, i));
  }

  // ----- on the chair

  function Passenger(p: Party, at: Place, b: BoardingMsg): Tourist {
    Tourist(p, at, Aboard(b.serial, b.chairId, b.heads, b.departure))
  }

  /** Tourist `i` has taken the first confirmation and is on its way up. */
  function Aloft(s: State, i: nat): State
    requires i < |s.ts| && s.boarding != []
  {
    var b := s.boarding[0];
    s.(ts := s.ts[i := Passenger(s.ts[i].party, Ride, b)], boarding := s.boarding[1..],
       free := s.free.(platform := s.free.platform + 1),
       phase := Mark(s.phase, b.serial, Riding(ChairOf(s, b.serial))))
  }

  lemma TakingIs(c: Config, s: State, i: nat)
    requires i < |s.ts| && s.ts[i].at == Await && s.boarding != [] && s.boarding[0].tourist == i
    ensures Enabled(c, s, TakeConfirmation(i, 0))
    ensures Apply(c, s, TakeConfirmation(i, 0)) ==
              Aloft(s, i).(ts := s.ts[i := Passenger(s.ts[i].party, PlatformOut, s.boarding[0])], free := s.free)
  {
    assert RemoveAt(s.boarding, 0) == s.boarding[1..];
  }

  lemma TakesOff(c: Config, s: State, i: nat) returns (path: seq<State>)
    requires i < |s.ts| && s.ts[i].at == Await && s.boarding != [] && s.boarding[0].tourist == i
    ensures Walk(c, path) && path[0] == s && path[|path| - 1] == Aloft(s, i)
  {
    var b, p := s.boarding[0], s.ts[i].party;
    var s1 := Aloft(s, i).(ts := s.ts[i := Passenger(p, PlatformOut, b)], free := s.free);
    TakingIs(c, s, i);
    path := Go(c, [s], TakeConfirmation(i, 0), s1);
    assert s1.ts[i := Passenger(p, Ride, b)] == Aloft(s, i).ts;
    path := Go(c, path, Move(i, Ride), Aloft(s, i));
  }

  /** The arrival message of a passenger. */
  function Arrived(s: State, i: nat): ArrivalMsg
    requires i < |s.ts| && s.ts[i].trip.Aboard?
  {
    ArrivalMsg(s.ts[i].trip.serial, i, s.ts[i].trip.chairId, s.ts[i].trip.heads)
  }

  /** Tourist `i` has announced itself at the top and come down again. */
  function Down(s: State, i: nat): State
    requires i < |s.ts| && s.ts[i].trip.Aboard?
  {
    var q := s.ts[i].trip.serial;
    s.(ts := s.ts[i := Idler(s.ts[i].party, Start)], arrivals := s.arrivals + [Arrived(s, i)],
       phase := Mark(s.phase, q, Announced(ChairOf(s, q))))
  }

  lemma GoesUp(c: Config, s: State, i: nat) returns (path: seq<State>)
    requires i < |s.ts| && s.ts[i].at == Ride && s.ts[i].trip.Aboard? && s.free.exit >= 1
    ensures Walk(c, path) && path[0] == s
    ensures path[|path| - 1] ==
              With(s, i, s.ts[i].(at := Announce), s.free.(exit := s.free.exit - 1), s.count)
  {
    var t := s.ts[i];
    assert s.ts == s.ts[i := t];
    path := MoveTo(c, [s], s, i, t, s.free, s.count, ExitGate);
    path := MoveTo(c, path, s, i, t.(at := ExitGate), s.free, s.count, Announce);
  }

  lemma ComesDown(c: Config, s: State, i: nat) returns (path: seq<State>)
    requires i < |s.ts| && s.ts[i].at == Ride && s.ts[i].trip.Aboard? && s.free.exit >= 1
    ensures Walk(c, path) && path[0] == s && path[|path| - 1] == Down(s, i)
  {
    var t, d, closed := s.ts[i], Down(s, i), s.free.(exit := s.free.exit - 1);
    path := GoesUp(c, s, i);
    assert s.ts[i := t.(at := Announce)][i := Idler(t.party, ExitOut)] == s.ts[i := Idler(t.party, ExitOut)];
    path := Go(c, path, SendArrival(i), d.(ts := s.ts[i := Idler(t.party, ExitOut)], free := closed));
    assert s.ts[i := Idler(t.party, ExitOut)][i := Idler(t.party, Descend)] == s.ts[i := Idler(t.party, Descend)];
    path := Go(c, path, Move(i, Descend), d.(ts := s.ts[i := Idler(t.party, Descend)]));
    assert s.ts[i := Idler(t.party, Descend)][i := Idler(t.party, Start)] == d.ts;
    path := Go(c, path, Move(i, Start), d);
  }

  // ----- the workers' part

  lemma FirstIsNext(m: PlatformMsg, rest: seq<PlatformMsg>)
    requires m.mtype == 2 && forall n | 0 <= n < |rest| :: rest[n].mtype == 2
    ensures NextMessage([m] + rest) == 0 && RemoveAt([m] + rest, 0) == rest
  {
    var q := [m] + rest;
    assert forall n | 0 <= n < |q| :: q[n].mtype == 2;
    assert FirstOf(q, 1) == |q|;
    assert FirstOf(q, 2) == 0;
  }

  /** The lower worker receives the first of the regular requests. */
  lemma ReceiveIs(c: Config, s: State, m: PlatformMsg, rest: seq<PlatformMsg>)
    requires s.low.pc.Loop? && s.queue == [m] + rest && m.mtype == 2
    requires forall n | 0 <= n < |rest| :: rest[n].mtype == 2
    ensures Enabled(c, s, Receive)
    ensures Apply(c, s, Receive) == s.(queue := rest, low := s.low.(pc := InHand(m.req)))
  {
    FirstIsNext(m, rest);
  }

  /** It buffers a request that fits. */
  lemma BufferIs(c: Config, s: State, r: Req)
    requires s.low.pc == InHand(r) && FitsOn(s.low, r) && |s.low.pending| < MAX_PENDING_PER_CHAIR
    ensures Enabled(c, s, Decide(false))
    ensures Apply(c, s, Decide(false)) ==
              s.(low := Lower(if s.low.slots + r.slots >= CHAIR_CAPACITY then Departing(Full) else Loop,
                              s.low.pending + [r], s.low.slots + r.slots, s.low.number))
  {
  }

  // ----- one party rides alone

  /** Nothing is between the gates and the chairs: the lower worker waits for requests. */
  ghost predicate Ready(c: Config, s: State) {
    && s.free == Init(c).free && s.queue == [] && s.boarding == []
    && s.low == Lower(Loop, [], 0, s.low.number) && s.permits >= 1
    && |s.confirmed| == |s.sent| && |s.phase| == |s.sent| && |s.requeues| == |s.sent|
  }

  /** Tourist `i` is about to set out, and will be let in. */
  ghost predicate Welcome(c: Config, s: State, i: nat) {
    && i < |s.ts| && s.ts[i] == Idler(s.ts[i].party, Start)
    && 1 <= s.ts[i].party.chairSlots <= 3 && s.ts[i].party.stationSlots <= c.capacity
  }

  lemma AsksAlone(c: Config, s: State, i: nat) returns (path: seq<State>)
    requires Ready(c, s) && Welcome(c, s, i)
    ensures Walk(c, path) && path[0] == s && path[|path| - 1] == Asked(s, i)
  {
    path := Asks(c, s, i, s.ts[i].party);
  }

  function Grasped(s: State, i: nat): State
    requires i < |s.ts|
  {
    Asked(s, i).(queue := [], low := s.low.(pc := InHand(Wish(s, i))))
  }

  /** Its request is buffered. */
  function Loaded(s: State, i: nat): State
    requires i < |s.ts|
  {
    Asked(s, i).(queue := [], low := Lower(Loop, [Wish(s, i)], Wish(s, i).slots, s.low.number))
  }

  lemma LoadingIs(c: Config, s: State, i: nat)
    requires Ready(c, s) && Welcome(c, s, i)
    ensures Enabled(c, Asked(s, i), Receive) && Apply(c, Asked(s, i), Receive) == Grasped(s, i)
    ensures Enabled(c, Grasped(s, i), Decide(false)) && Apply(c, Grasped(s, i), Decide(false)) == Loaded(s, i)
  {
    var m := PlatformMsg(2, Wish(s, i));
    assert Asked(s, i).queue == [m] + [];
    ReceiveIs(c, Asked(s, i), m, []);
    BufferIs(c, Grasped(s, i), Wish(s, i));
    assert [] + [Wish(s, i)] == [Wish(s, i)];
  }

  /** The chair it takes by itself. */
  function OwnChair(s: State, i: nat, counted: nat): Chair
    requires i < |s.ts|
  {
    Chair(|s.confirmed|, 1, Wish(s, i).slots, Interrupted, 0, counted)
  }

  function Leaving(s: State, i: nat): State
    requires i < |s.ts|
  {
    Loaded(s, i).(low := Loaded(s, i).low.(pc := Departing(Interrupted)))
  }

  function Left(s: State, i: nat): State
    requires i < |s.ts|
  {
    Loaded(s, i).(low := Loaded(s, i).low.(pc := Confirming(Interrupted, 0, 0)), permits := s.permits - 1,
                  chairs := s.chairs + [OwnChair(s, i, 0)])
  }

  function Word(s: State, i: nat): BoardingMsg {
    BoardingMsg(|s.sent|, i, s.low.number, 1, 0)
  }

  /** Its chair has left, and it is told. */
  function Told(s: State, i: nat): State
    requires i < |s.ts|
  {
    Left(s, i).(low := Lower(Loop, [], 0, NextNumber(s.low.number)), boarding := [Word(s, i)],
                confirmed := s.confirmed + [Wish(s, i)], phase := s.phase + [Confirmed(|s.chairs|)])
  }

  lemma LeavingIs(c: Config, s: State, i: nat)
    requires Ready(c, s) && Welcome(c, s, i)
    ensures Enabled(c, Loaded(s, i), Interrupt) && Apply(c, Loaded(s, i), Interrupt) == Leaving(s, i)
    ensures Enabled(c, Leaving(s, i), Depart(0)) && Apply(c, Leaving(s, i), Depart(0)) == Left(s, i)
  {
  }

  lemma TellingIs(c: Config, s: State, i: nat)
    requires Ready(c, s) && Welcome(c, s, i)
    ensures Enabled(c, Left(s, i), Confirm) && Apply(c, Left(s, i), Confirm) == Told(s, i)
  {
    assert Left(s, i).phase[|s.sent| := Confirmed(|s.chairs|)] == Told(s, i).phase;
  }

  /** It has been up, announced itself, and come down again. */
  function Returned(s: State, i: nat): State
    requires i < |s.ts|
  {
    Told(s, i).(ts := s.ts, free := s.free, boarding := [],
                phase := s.phase + [Announced(|s.chairs|)],
                arrivals := s.arrivals + [ArrivalMsg(|s.sent|, i, s.low.number, 1)])
  }

  /** On its chair. */
  function Flying(s: State, i: nat): State
    requires i < |s.ts|
  {
    Told(s, i).(ts := s.ts[i := Passenger(s.ts[i].party, Ride, Word(s, i))], free := s.free, boarding := [],
                phase := s.phase + [Riding(|s.chairs|)])
  }

  lemma FliesOff(c: Config, s: State, i: nat) returns (path: seq<State>)
    requires Ready(c, s) && Welcome(c, s, i)
    ensures Walk(c, path) && path[0] == Told(s, i) && path[|path| - 1] == Flying(s, i)
  {
    var t := Told(s, i);
    path := TakesOff(c, t, i);
    assert t.ts[i := Passenger(s.ts[i].party, Ride, Word(s, i))] == Flying(s, i).ts;
    assert t.phase[|s.sent| := Riding(|s.chairs|)] == Flying(s, i).phase;
    assert Aloft(t, i) == Flying(s, i);
  }

  lemma FliesBack(c: Config, s: State, i: nat) returns (path: seq<State>)
    requires Ready(c, s) && Welcome(c, s, i)
    ensures Walk(c, path) && path[0] == Flying(s, i) && path[|path| - 1] == Returned(s, i)
  {
    var f := Flying(s, i);
    path := ComesDown(c, f, i);
    assert f.ts[i := Idler(s.ts[i].party, Start)] == s.ts;
    assert f.phase[|s.sent| := Announced(|s.chairs|)] == Returned(s, i).phase;
    assert Down(f, i) == Returned(s, i);
  }

  // ----- and is counted at the top

  /** The upper worker counts an arrival, the only one there is. */
  lemma CountingIs(c: Config, s: State, a: ArrivalMsg, k: nat, s': State)
    requires s.up.hand.None? && s.arrivals == [a] && a.serial < |s.phase| && s.phase[a.serial] == Announced(k)
    requires k < |s.chairs|
    requires var o := ChairTracking.Track(s.up.trackers, ChairTracking.Arrival(a.chairId, a.heads));
             s' == s.(arrivals := [], up := Upper(None, o.table),
                      permits := if o.posted then s.permits + 1 else s.permits,
                      phase := s.phase[a.serial := Counted(k)],
                      chairs := s.chairs[k := s.chairs[k].(counted := s.chairs[k].counted + 1)],
                      returned := if o.posted then s.returned + [k] else s.returned)
    ensures Enabled(c, s, ReceiveArrival)
    ensures var h := Apply(c, s, ReceiveArrival);
            && h == s.(arrivals := [], up := s.up.(hand := Some(a)))
            && Enabled(c, h, CountArrival) && Apply(c, h, CountArrival) == s'
  {
    assert s.arrivals[1..] == [];
  }
}
