/**
 The chair pipeline as one concurrent system: any number of tourists, the lower worker, the
 upper worker, and the semaphores and message queues between them.

 An atomic step is one semaphore operation, one message sent or received, or one critical
 section, together with the local code up to the next such operation. `Enabled` says when a
 step can be taken and `Apply` what it does. Every reading of `emergency_stop` is a parameter
 of its step, so what holds here holds for every behaviour of the emergency protocol.

 `sent`, `confirmed`, `phase`, `requeues`, `chairs` and `returned` are history: no guard reads
 them. A request is known by its serial number, its position in `sent`.
 */
module Pipeline {
  import opened Constants
  import opened ChairTracking

  // ----- tourists

  datatype Party = Party(vip: bool, stationSlots: int, chairSlots: int)

  /** Where a tourist process stands in its ride loop: the operation it performs next. */
  datatype Place =
    | Start | EntryGate | StationDoor | CountIn | EntryOut | Choose | FrightCount | FrightOut
    | PlatformGate | CountOut | StationOut | StopCheck | StopRegister | StopWait | Request | Await
    | PlatformOut | Ride | ExitGate | Announce | ExitOut | Descend | Gone

  /** The boarding a tourist is engaged in, with what its confirmation said. */
  datatype Trip = NoTrip | Waiting(serial: nat) | Aboard(serial: nat, chairId: int, heads: int, departure: int)

  datatype Tourist = Tourist(party: Party, at: Place, trip: Trip)

  // ----- messages

  datatype Req = Req(serial: nat, tourist: nat, slots: int)
  datatype PlatformMsg = PlatformMsg(mtype: int, req: Req)
  datatype BoardingMsg = BoardingMsg(serial: nat, tourist: nat, chairId: int, heads: int, departure: int)
  datatype ArrivalMsg = ArrivalMsg(serial: nat, tourist: nat, chairId: int, heads: int)

  // ----- workers

  /** Why the chair being loaded leaves. */
  datatype Cause = Interrupted | Full | NoRoom(req: Req)

  datatype LowerPc =
    | Loop                                                        // blocked in msgrcv on the platform queue
    | InHand(req: Req)                                            // a request received, not yet decided on
    | PutBack(req: Req)                                           // about to requeue it with priority
    | Departing(cause: Cause)                                     // waiting for a chair permit
    | Confirming(cause: Cause, next: nat, departure: int)         // sending confirmations

  datatype Lower = Lower(pc: LowerPc, pending: seq<Req>, slots: int, number: int)

  datatype Upper = Upper(hand: Option<ArrivalMsg>, trackers: seq<Tracker>)

  // ----- history

  datatype Phase = Requested | Confirmed(chair: nat) | Riding(chair: nat) | Announced(chair: nat) | Counted(chair: nat)

  /** The k-th departed chair carries the requests `first .. first + size`. */
  datatype Chair = Chair(first: nat, size: nat, slots: int, cause: Cause, departure: int, counted: nat)

  // ----- the system

  datatype Gate = Entry | Station | Platform | Exit

  datatype Free = Free(entry: int, station: int, platform: int, exit: int)

  datatype Config = Config(capacity: int, danger: bool, parties: seq<Party>)

  datatype State = State(
    ts: seq<Tourist>,
    free: Free,                      // the gate and station semaphores
    count: int,                      // lower_station_count
    queue: seq<PlatformMsg>,         // platform queue
    low: Lower,
    permits: int,                    // SEM_CHAIRS
    boarding: seq<BoardingMsg>,
    arrivals: seq<ArrivalMsg>,
    up: Upper,
    sent: seq<Req>,                  // requests in the order they were sent
    confirmed: seq<Req>,             // requests in the order they were confirmed
    phase: seq<Phase>,               // progress of each request
    requeues: seq<nat>,              // times each request was put back for lack of room
    chairs: seq<Chair>,              // chairs in the order they departed
    returned: seq<nat>)              // chairs in the order their permits came back

  ghost predicate ValidConfig(c: Config) {
    && c.capacity > 0
    && forall i | 0 <= i < |c.parties| ::
      1 <= c.parties[i].stationSlots <= 3 && 1 <= c.parties[i].chairSlots <= 3
  }

  function Init(c: Config): State {
    State(seq(|c.parties|, i requires 0 <= i < |c.parties| => Tourist(c.parties[i], Start, NoTrip)),
          Free(ENTRY_GATES, c.capacity, PLATFORM_GATES, EXIT_GATES), 0,
          [], Lower(Loop, [], 0, 1), MAX_CHAIRS_IN_TRANSIT, [], [], Upper(None, []),
          [], [], [], [], [], [])
  }

  // ----- semaphores

  function Get(f: Free, g: Gate): int {
    match g
    case Entry => f.entry
    case Station => f.station
    case Platform => f.platform
    case Exit => f.exit
  }

  function Add(f: Free, g: Gate, n: int): Free {
    match g
    case Entry => f.(entry := f.entry + n)
    case Station => f.(station := f.station + n)
    case Platform => f.(platform := f.platform + n)
    case Exit => f.(exit := f.exit + n)
  }

  /** The semaphore or counter operation at a place; `Skip` where there is none. */
  datatype Operation = Skip | Wait(gate: Gate, n: int) | Post(gate: Gate, n: int) | Count(n: int)

  function GateOf(p: Party): int {
    if p.vip then 0 else 1
  }

  function OperationAt(t: Tourist): Operation {
    match t.at
    case EntryGate => Wait(Entry, GateOf(t.party))
    case StationDoor => Wait(Station, t.party.stationSlots)
    case CountIn => Count(t.party.stationSlots)
    case EntryOut => Post(Entry, GateOf(t.party))
    case FrightCount => Count(-t.party.stationSlots)
    case FrightOut => Post(Station, t.party.stationSlots)
    case PlatformGate => Wait(Platform, 1)
    case CountOut => Count(-t.party.stationSlots)
    case StationOut => Post(Station, t.party.stationSlots)
    case PlatformOut => Post(Platform, 1)
    case ExitGate => Wait(Exit, 1)
    case ExitOut => Post(Exit, 1)
    case _ => Skip
  }

  /** Whether the tourist's own code can lead from one place to the next by itself or by the
      operation at the first. */
  predicate Follows(at: Place, to: Place) {
    match at
    case Start => to == EntryGate || to == Gone
    case EntryGate => to == StationDoor
    case StationDoor => to == CountIn
    case CountIn => to == EntryOut
    case EntryOut => to == Choose
    case Choose => to == FrightCount || to == PlatformGate
    case FrightCount => to == FrightOut
    case FrightOut => to == Gone
    case PlatformGate => to == CountOut
    case CountOut => to == StationOut
    case StationOut => to == StopCheck
    case PlatformOut => to == Ride
    case Ride => to == ExitGate
    case ExitGate => to == Announce
    case ExitOut => to == Descend
    case Descend => to == Start || to == Gone
    case _ => false
  }

  // ----- message queues

  function OfType(q: seq<PlatformMsg>, mtype: int): seq<Req> {
    if q == [] then [] else (if q[0].mtype == mtype then [q[0].req] else []) + OfType(q[1..], mtype)
  }

  /** Position of the first message of a type, or the length when there is none. */
  function FirstOf(q: seq<PlatformMsg>, mtype: int): (i: nat)
    ensures i <= |q|
    ensures i < |q| ==> q[i].mtype == mtype
    ensures forall j | 0 <= j < i :: q[j].mtype != mtype
  {
    if q == [] || q[0].mtype == mtype then 0 else 1 + FirstOf(q[1..], mtype)
  }

  /** msgrcv with type -2: the first message of type 1, or else the first of type 2. */
  function NextMessage(q: seq<PlatformMsg>): (i: nat)
    ensures i <= |q|
  {
    if FirstOf(q, 1) < |q| then FirstOf(q, 1) else FirstOf(q, 2)
  }

  function RemoveAt<T>(q: seq<T>, i: nat): seq<T>
    requires i < |q|
  {
    q[..i] + q[i + 1..]
  }

  // ----- chairs

  function NextNumber(number: int): int {
    number % TOTAL_CHAIRS + 1
  }

  /** The id painted on the k-th departed chair, counting from 0. */
  function ChairId(k: nat): int {
    k % TOTAL_CHAIRS + 1
  }

  // ----- steps

  datatype Step =
    | Move(i: nat, to: Place)
    | ReadStop(i: nat, emergency: bool)        // tourist reads emergency_stop
    | PassClear(i: nat)                        // tourist obtains an emergency-clear permit
    | SendRequest(i: nat)
    | TakeConfirmation(i: nat, j: nat)
    | SendArrival(i: nat)
    | Receive                                  // lower worker takes a request
    | Interrupt                                // its msgrcv is interrupted
    | Decide(emergency: bool)
    | Requeue
    | Depart(now: int)
    | Confirm
    | ReceiveArrival                           // upper worker takes an arrival
    | CountArrival

  /** When a step can be taken. No guard reads history. */
  predicate Enabled(c: Config, s: State, step: Step) {
    match step
    case Move(i, to) =>
      && i < |s.ts| && Follows(s.ts[i].at, to)
      && var op := OperationAt(s.ts[i]);
         op.Wait? ==> op.n <= Get(s.free, op.gate)
    case ReadStop(i, emergency) =>
      i < |s.ts| && (s.ts[i].at == StopCheck || s.ts[i].at == StopRegister) && (emergency ==> c.danger)
    case PassClear(i) => i < |s.ts| && s.ts[i].at == StopWait
    case SendRequest(i) => i < |s.ts| && s.ts[i].at == Request
    case TakeConfirmation(i, j) =>
      && i < |s.ts| && s.ts[i].at == Await && j < |s.boarding| && s.boarding[j].tourist == i
      && forall k | 0 <= k < j :: s.boarding[k].tourist != i
    case SendArrival(i) => i < |s.ts| && s.ts[i].at == Announce
    case Receive => s.low.pc.Loop? && NextMessage(s.queue) < |s.queue|
    case Interrupt => s.low.pc.Loop? && s.low.pending != []
    case Decide(emergency) => s.low.pc.InHand? && (emergency ==> c.danger)
    case Requeue => s.low.pc.PutBack?
    case Depart(now) => s.low.pc.Departing? && s.permits >= 1
    case Confirm => s.low.pc.Confirming? && s.low.pc.next < |s.low.pending|
    case ReceiveArrival => s.up.hand.None? && s.arrivals != []
    case CountArrival => s.up.hand.Some?
  }

  // ----- tourist steps

  function At(s: State, i: nat, to: Place): State
    requires i < |s.ts|
  {
    s.(ts := s.ts[i := s.ts[i].(at := to)])
  }

  function ApplyMove(s: State, i: nat, to: Place): State
    requires i < |s.ts|
  {
    match OperationAt(s.ts[i])
    case Skip => At(s, i, to)
    case Wait(g, n) => At(s, i, to).(free := Add(s.free, g, -n))
    case Post(g, n) => At(s, i, to).(free := Add(s.free, g, n))
    case Count(n) => At(s, i, to).(count := s.count + n)
  }

  function ApplySendRequest(s: State, i: nat): State
    requires i < |s.ts|
  {
    var r := Req(|s.sent|, i, s.ts[i].party.chairSlots);
    s.(ts := s.ts[i := s.ts[i].(at := Await, trip := Waiting(|s.sent|))],
       queue := s.queue + [PlatformMsg(2, r)],
       sent := s.sent + [r], phase := s.phase + [Requested], requeues := s.requeues + [0])
  }

  /** The phase of a request, with its chair carried over. */
  function ChairOf(s: State, serial: nat): nat {
    if serial < |s.phase| && !s.phase[serial].Requested? then s.phase[serial].chair else 0
  }

  function Mark(ps: seq<Phase>, serial: nat, p: Phase): seq<Phase> {
    if serial < |ps| then ps[serial := p] else ps
  }

  function ApplyTakeConfirmation(s: State, i: nat, j: nat): State
    requires i < |s.ts| && j < |s.boarding|
  {
    var b := s.boarding[j];
    s.(ts := s.ts[i := s.ts[i].(at := PlatformOut, trip := Aboard(b.serial, b.chairId, b.heads, b.departure))],
       boarding := RemoveAt(s.boarding, j),
       phase := Mark(s.phase, b.serial, Riding(ChairOf(s, b.serial))))
  }

  function ApplySendArrival(s: State, i: nat): State
    requires i < |s.ts|
  {
    match s.ts[i].trip
    case Aboard(q, id, heads, _) =>
      s.(ts := s.ts[i := s.ts[i].(at := ExitOut, trip := NoTrip)],
         arrivals := s.arrivals + [ArrivalMsg(q, i, id, heads)],
         phase := Mark(s.phase, q, Announced(ChairOf(s, q))))
    case _ => At(s, i, ExitOut)
  }

  // ----- lower worker steps

  function ApplyReceive(s: State): State
    requires NextMessage(s.queue) < |s.queue|
  {
    var n := NextMessage(s.queue);
    s.(queue := RemoveAt(s.queue, n), low := s.low.(pc := InHand(s.queue[n].req)))
  }

  predicate FitsOn(l: Lower, r: Req) {
    l.slots + r.slots <= CHAIR_CAPACITY
  }

  /** What the worker does with the request in hand, up to waiting for a chair permit. */
  function Decided(l: Lower, r: Req, emergency: bool): Lower {
    if emergency then
      l.(pc := PutBack(r))
    else if !FitsOn(l, r) then
      if l.pending != [] then l.(pc := Departing(NoRoom(r)))
      else l.(pc := PutBack(r), slots := 0, number := NextNumber(l.number))
    else
      var pending := if |l.pending| < MAX_PENDING_PER_CHAIR then l.pending + [r] else l.pending;
      var slots := l.slots + r.slots;
      l.(pending := pending, slots := slots, pc := if slots >= CHAIR_CAPACITY then Departing(Full) else Loop)
  }

  function ApplyDecide(s: State, emergency: bool): State
    requires s.low.pc.InHand?
  {
    var r := s.low.pc.req;
    s.(low := Decided(s.low, r, emergency),
       requeues := if !emergency && !FitsOn(s.low, r) && r.serial < |s.requeues|
                   then s.requeues[r.serial := s.requeues[r.serial] + 1] else s.requeues)
  }

  function ApplyDepart(s: State, now: int): State
    requires s.low.pc.Departing?
  {
    var l := s.low;
    s.(permits := s.permits - 1,
       low := l.(pc := Confirming(l.pc.cause, 0, now)),
       chairs := s.chairs + [Chair(|s.confirmed|, |l.pending|, l.slots, l.pc.cause, now, 0)])
  }

  function Confirmation(l: Lower, n: nat, departure: int): BoardingMsg
    requires n < |l.pending|
  {
    var r := l.pending[n];
    BoardingMsg(r.serial, r.tourist, l.number, |l.pending|, departure)
  }

  /** The lower worker once the last confirmation is out: an empty chair under the next number. */
  function Reloaded(l: Lower, cause: Cause): Lower {
    Lower(if cause.NoRoom? then PutBack(cause.req) else Loop, [], 0, NextNumber(l.number))
  }

  function ApplyConfirm(s: State): State
    requires s.low.pc.Confirming? && s.low.pc.next < |s.low.pending|
  {
    var l, n, dep := s.low, s.low.pc.next, s.low.pc.departure;
    s.(boarding := s.boarding + [Confirmation(l, n, dep)],
       confirmed := s.confirmed + [l.pending[n]],
       phase := Mark(s.phase, l.pending[n].serial, Confirmed(if s.chairs == [] then 0 else |s.chairs| - 1)),
       low := if n + 1 < |l.pending| then l.(pc := Confirming(l.pc.cause, n + 1, dep))
              else Reloaded(l, l.pc.cause))
  }

  // ----- upper worker steps

  function ApplyCountArrival(s: State): State
    requires s.up.hand.Some?
  {
    var m := s.up.hand.value;
    var k, o := ChairOf(s, m.serial), Track(s.up.trackers, Arrival(m.chairId, m.heads));
    s.(up := Upper(None, o.table),
       permits := if o.posted then s.permits + 1 else s.permits,
       phase := Mark(s.phase, m.serial, Counted(k)),
       chairs := if k < |s.chairs| then s.chairs[k := s.chairs[k].(counted := s.chairs[k].counted + 1)]
                 else s.chairs,
       returned := if o.posted then s.returned + [k] else s.returned)
  }

  function Apply(c: Config, s: State, step: Step): State
    requires Enabled(c, s, step)
  {
    match step
    case Move(i, to) => ApplyMove(s, i, to)
    case ReadStop(i, emergency) =>
      At(s, i, if !emergency then Request else if s.ts[i].at == StopCheck then StopRegister else StopWait)
    case PassClear(i) => At(s, i, Request)
    case SendRequest(i) => ApplySendRequest(s, i)
    case TakeConfirmation(i, j) => ApplyTakeConfirmation(s, i, j)
    case SendArrival(i) => ApplySendArrival(s, i)
    case Receive => ApplyReceive(s)
    case Interrupt => s.(low := s.low.(pc := Departing(Interrupted)))
    case Decide(emergency) => ApplyDecide(s, emergency)
    case Requeue => s.(queue := s.queue + [PlatformMsg(1, s.low.pc.req)], low := s.low.(pc := Loop))
    case Depart(now) => ApplyDepart(s, now)
    case Confirm => ApplyConfirm(s)
    case ReceiveArrival => s.(arrivals := s.arrivals[1..], up := s.up.(hand := Some(s.arrivals[0])))
    case CountArrival => ApplyCountArrival(s)
  }

  ghost predicate Next(c: Config, s: State, s': State) {
    exists step :: Enabled(c, s, step) && s' == Apply(c, s, step)
  }

  /** Chairs dispatched whose passengers have not all been counted at the top. */
  ghost function Outstanding(s: State): set<nat> {
    set k | 0 <= k < |s.chairs| && s.chairs[k].counted < s.chairs[k].size
  }

  /** No two outstanding chairs bear the same id. */
  ghost predicate DistinctIds(s: State) {
    forall j, k | j in Outstanding(s) && k in Outstanding(s) && ChairId(j) == ChairId(k) :: j == k
  }

  ghost predicate StepsAt(c: Config, tr: seq<State>, n: nat)
    requires n < |tr| - 1
  {
    DistinctIds(tr[n]) && Next(c, tr[n], tr[n + 1])
  }

  /** A run: from the initial state, step by step, through states without a reused id. */
  ghost predicate Run(c: Config, tr: seq<State>) {
    && |tr| > 0 && tr[0] == Init(c)
    && forall n | 0 <= n < |tr| - 1 :: StepsAt(c, tr, n)
  }
}
