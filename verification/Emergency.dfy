/**
 The emergency protocol of the two workers as one concurrent system: the try-lock, the SIGUSR1
 flags, the READY / I_AM_READY handshake on one message queue, and the tourists that wait for
 the emergency to clear.

 A critical section under SEM_STATE is one atomic step. A signal is pending from `kill` until
 its handler runs, which may be at any later moment, but no later than the return of the
 receiver's blocking msgrcv. `holds`, `answered`, `mark`, `acquired`, `registered`, `passed`,
 `unexpected` and the log are history: no guard reads them.
 */
module Emergency {

  datatype Role = Lower | Upper

  function Other(r: Role): Role {
    if r == Lower then Upper else Lower
  }

  datatype Kind = ReadyToResume | IAmReady

  datatype WorkerMsg = WorkerMsg(dest: Role, kind: Kind)

  /** The operation a worker performs next. */
  datatype Pc =
    | Top            // test the SIGUSR1 flag at the head of the main loop
    | CheckInit      // test whether this worker is the initiator and how long it has waited
    | ReadStop       // lower worker only: read emergency_stop
    | Work           // serve the queue, perhaps detect danger
    | TryLock | MarkInit | RaiseStop | SendUsr1
    | SendReady | AwaitReady | ClearStop | Capture | PostClear | Unlock | Retire
    | AckEnter | AckRaise | AckWait | AckAnswer | AckClear

  /** What a worker keeps besides the handshake. */
  datatype Books = Books(
    lastDanger: int,       // last danger detection, 0 for none
    captured: nat,         // waiters taken over and not yet posted
    mark: nat)             // registrations when this tenure cleared emergency_stop

  datatype Worker = Worker(
    pc: Pc,
    pending: bool,         // SIGUSR1 sent, handler not yet run
    flag: bool,            // g_emergency_signal
    initiator: bool,
    start: int,            // emergency start, 0 for none
    holds: bool,           // between acquiring and releasing the lock
    answered: bool,        // the other worker has answered in this tenure
    acquired: int,         // time of acquiring the lock
    books: Books)

  datatype Tenure = Tenure(holder: Role, from: int, to: int)

  datatype Crowd = Crowd(
    waiters: nat,               // emergency_waiters
    clear: nat,                 // SEM_EMERGENCY_CLEAR
    waiting: set<nat>,          // tourists registered and not yet passed
    registered: nat,            // registrations so far
    passed: nat)                // tourists that passed so far

  datatype Log = Log(
    tenures: seq<Tenure>,
    lowerDangers: seq<int>,     // detection times
    upperDangers: seq<int>)

  datatype State = State(
    lower: Worker,
    upper: Worker,
    lock: int,                  // SEM_EMERGENCY_LOCK
    stop: bool,                 // emergency_stop
    queue: seq<WorkerMsg>,      // worker queue
    now: int,                   // the published clock, in simulated milliseconds
    unexpected: bool,           // a worker logged an unexpected message type
    crowd: Crowd,
    log: Log)

  /** Danger duration in simulated minutes, and the clock at start in simulated milliseconds. */
  datatype Config = Config(duration: nat, startMs: nat)

  const MS_PER_MINUTE := 60000

  function W(s: State, r: Role): Worker {
    if r == Lower then s.lower else s.upper
  }

  function Put(s: State, r: Role, w: Worker): State {
    if r == Lower then s.(lower := w) else s.(upper := w)
  }

  function PutBoth(s: State, r: Role, w: Worker, other: Worker): State {
    if r == Lower then s.(lower := w, upper := other) else s.(lower := other, upper := w)
  }

  function Goto(s: State, r: Role, pc: Pc): State {
    Put(s, r, W(s, r).(pc := pc))
  }

  function Dangers(s: State, r: Role): seq<int> {
    if r == Lower then s.log.lowerDangers else s.log.upperDangers
  }

  function Init(c: Config): State {
    var w := Worker(Top, false, false, false, 0, false, false, 0, Books(0, 0, 0));
    State(w, w, 1, false, [], c.startMs, false, Crowd(0, 0, {}, 0, 0), Log([], [], []))
  }

  /** Whether simulated time since `from` has reached the danger duration. */
  predicate Elapsed(c: Config, now: int, from: int) {
    now - from >= c.duration * MS_PER_MINUTE
  }

  /** Position of the first message for a worker, or the length when there is none. */
  function FirstFor(q: seq<WorkerMsg>, r: Role): (i: nat)
    ensures i <= |q|
    ensures i < |q| ==> q[i].dest == r
    ensures forall j | 0 <= j < i :: q[j].dest != r
  {
    if q == [] || q[0].dest == r then 0 else 1 + FirstFor(q[1..], r)
  }

  // ----- steps

  datatype Step =
    | Tick(t: int)              // the time server publishes a time
    | Deliver(r: Role)          // the SIGUSR1 handler runs
    | Restart(r: Role)          // an interrupted wait sends the worker back to its loop head
    | Danger(r: Role)           // check_for_danger decides to trigger
    | Go(r: Role)               // the worker performs the operation it stands at
    | Register(i: nat)          // a tourist reads emergency_stop == 1 and counts itself in
    | Pass(i: nat)              // a tourist obtains a permit

  predicate Enabled(c: Config, s: State, step: Step) {
    match step
    case Tick(t) => s.now <= t
    case Deliver(r) => W(s, r).pending
    case Restart(r) => W(s, r).pc == ReadStop || W(s, r).pc == Work
    case Danger(r) =>
      W(s, r).pc == Work && (W(s, r).books.lastDanger > 0 ==> Elapsed(c, s.now, W(s, r).books.lastDanger))
    case Go(r) =>
      && W(s, r).pc != Work
      && (W(s, r).pc == AwaitReady || W(s, r).pc == AckWait ==> FirstFor(s.queue, r) < |s.queue|)
    case Register(i) => s.stop && i !in s.crowd.waiting
    case Pass(i) => i in s.crowd.waiting && s.crowd.clear > 0
  }

  function Take(s: State, r: Role, expected: Kind): State {
    var i := FirstFor(s.queue, r);
    if i == |s.queue| then s
    else s.(queue := s.queue[..i] + s.queue[i + 1..],
            unexpected := s.unexpected || s.queue[i].kind != expected)
  }

  function Send(s: State, r: Role, kind: Kind): State {
    s.(queue := s.queue + [WorkerMsg(Other(r), kind)])
  }

  /** What the head of the main loop makes of a worker, given the time and emergency_stop. */
  function Head(c: Config, r: Role, w: Worker, now: int, stop: bool): Worker {
    match w.pc
    case Top => if w.flag then w.(flag := false, pc := AckEnter) else w.(pc := CheckInit)
    case CheckInit =>
      if w.initiator && w.start > 0 then
        w.(pc := if Elapsed(c, now, w.start) then SendReady else Top)
      else
        w.(pc := if r == Lower then ReadStop else Work)
    case ReadStop => w.(pc := if stop then AckEnter else Work)
    case _ => w
  }

  /** The head of the main loop, up to serving the queue. */
  function LoopHead(c: Config, s: State, r: Role): State {
    Put(s, r, Head(c, r, W(s, r), s.now, s.stop))
  }

  /** worker_trigger_emergency_stop. */
  function Trigger(s: State, r: Role): State {
    var w := W(s, r);
    match w.pc
    case TryLock =>
      if s.lock > 0 then
        Put(s.(lock := s.lock - 1), r, w.(pc := MarkInit, holds := true, answered := false, acquired := s.now))
      else
        Goto(s, r, AckEnter)
    case MarkInit => Put(s, r, w.(pc := RaiseStop, initiator := true, start := s.now))
    case RaiseStop => Goto(s.(stop := true), r, SendUsr1)
    case SendUsr1 => PutBoth(s, r, w.(pc := Top), W(s, Other(r)).(pending := true))
    case _ => s
  }

  /** worker_initiate_resume, with ipc_release_emergency_waiters inside it. */
  function Resume(s: State, r: Role): State {
    var w := W(s, r);
    match w.pc
    case SendReady => Put(Send(s, r, ReadyToResume), r, w.(pc := AwaitReady))
    case AwaitReady => Put(Take(s, r, IAmReady), r, w.(pc := ClearStop))
    case ClearStop =>
      Put(s.(stop := false), r, w.(pc := Capture, books := w.books.(mark := s.crowd.registered)))
    case Capture =>
      Put(s.(crowd := s.crowd.(waiters := 0)), r,
          w.(pc := PostClear, books := w.books.(captured := s.crowd.waiters)))
    case PostClear =>
      Put(s.(crowd := s.crowd.(clear := s.crowd.clear + w.books.captured)), r,
          w.(pc := Unlock, books := w.books.(captured := 0)))
    case Unlock =>
      Put(s.(lock := s.lock + 1, log := s.log.(tenures := s.log.tenures + [Tenure(r, w.acquired, s.now)])), r,
          w.(pc := Retire, holds := false))
    case Retire => Put(s, r, w.(pc := Top, initiator := false, start := 0))
    case _ => s
  }

  /** worker_acknowledge_emergency_stop. */
  function Acknowledge(s: State, r: Role): State {
    var w := W(s, r);
    match w.pc
    case AckEnter => Put(s, r, w.(pc := AckRaise, initiator := false))
    case AckRaise => Goto(s.(stop := true), r, AckWait)
    case AckWait =>
      Put(Take(s, r, ReadyToResume), r, w.(pc := AckAnswer, flag := w.flag || w.pending, pending := false))
    case AckAnswer =>
      PutBoth(Send(s, r, IAmReady), r, w.(pc := AckClear), W(s, Other(r)).(answered := true))
    case AckClear => Goto(s.(stop := false), r, Top)
    case _ => s
  }

  predicate InHead(pc: Pc) { pc == Top || pc == CheckInit || pc == ReadStop }

  predicate InTrigger(pc: Pc) { pc == TryLock || pc == MarkInit || pc == RaiseStop || pc == SendUsr1 }

  predicate InAcknowledge(pc: Pc) {
    pc == AckEnter || pc == AckRaise || pc == AckWait || pc == AckAnswer || pc == AckClear
  }

  /** One operation of a worker, by where it stands. */
  function Operate(c: Config, s: State, r: Role): State {
    var pc := W(s, r).pc;
    if InHead(pc) then LoopHead(c, s, r)
    else if InTrigger(pc) then Trigger(s, r)
    else if InAcknowledge(pc) then Acknowledge(s, r)
    else Resume(s, r)
  }

  function Apply(c: Config, s: State, step: Step): State
    requires Enabled(c, s, step)
  {
    match step
    case Tick(t) => s.(now := t)
    case Deliver(r) => Put(s, r, W(s, r).(pending := false, flag := true))
    case Restart(r) => Goto(s, r, Top)
    case Danger(r) =>
      Put(s.(log := if r == Lower then s.log.(lowerDangers := s.log.lowerDangers + [s.now])
                    else s.log.(upperDangers := s.log.upperDangers + [s.now])), r,
          W(s, r).(pc := TryLock, books := W(s, r).books.(lastDanger := s.now)))
    case Go(r) => Operate(c, s, r)
    case Register(i) =>
      s.(crowd := s.crowd.(waiters := s.crowd.waiters + 1, waiting := s.crowd.waiting + {i},
                           registered := s.crowd.registered + 1))
    case Pass(i) =>
      s.(crowd := s.crowd.(clear := s.crowd.clear - 1, waiting := s.crowd.waiting - {i},
                           passed := s.crowd.passed + 1))
  }

  ghost predicate Next(c: Config, s: State, s': State) {
    exists step :: Enabled(c, s, step) && s' == Apply(c, s, step)
  }

  ghost predicate StepsAt(c: Config, tr: seq<State>, n: nat)
    requires n < |tr| - 1
  {
    Next(c, tr[n], tr[n + 1])
  }

  ghost predicate Run(c: Config, tr: seq<State>) {
    && |tr| > 0 && tr[0] == Init(c)
    && forall n | 0 <= n < |tr| - 1 :: StepsAt(c, tr, n)
  }
}
