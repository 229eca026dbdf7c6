/**
 The whole ropeway: the chair pipeline, the emergency protocol and the clock in step with each
 other. Tourists and the lower worker read the protocol's emergency_stop, a tourist that waits
 for the emergency to clear is one the protocol counts, a worker serves its queue only where
 the protocol lets it, once for every pass of its loop, and detects danger only after it has
 served somebody, and the protocol reads the published time.
 */
module Ropeway {
  import opened Constants
  import Pipeline
  import Emergency
  import Clock

  datatype Config = Config(pipe: Pipeline.Config, day: Clock.Day, realStart: real, duration: nat)

  /** How far a worker is with the iteration of its loop: at its queue with nothing taken from it
      yet; past that; or about to check for danger, having buffered a request or counted an arrival. */
  datatype Desk = Open | Busy | Checking

  datatype State = State(
    p: Pipeline.State,
    e: Emergency.State,
    es: seq<Clock.Event>,       // history of the clock
    since: nat,                 // its length when the emergency lock was last acquired
    lowerSeen: seq<nat>,        // its lengths when the lower worker detected its dangers
    upperSeen: seq<nat>,        // and when the upper worker did
    lowerDesk: Desk,
    upperDesk: Desk)

  ghost predicate ValidConfig(c: Config) {
    Pipeline.ValidConfig(c.pipe) && Clock.ValidDay(c.day)
  }

  /** The clock as it starts. */
  function Started(c: Config): Clock.Server {
    Clock.Started(c.day, c.realStart)
  }

  function Protocol(c: Config): Emergency.Config
    requires ValidConfig(c)
  {
    Emergency.Config(c.duration, c.day.start * 60 * 1000)
  }

  function Init(c: Config): State
    requires ValidConfig(c)
  {
    State(Pipeline.Init(c.pipe), Emergency.Init(Protocol(c)), [], 0, [], [], Open, Open)
  }

  datatype Step =
    | Pipe(move: Pipeline.Step)          // a tourist, or a worker serving its queue
    | Protect(act: Emergency.Step)       // a worker in the protocol, or a signal delivered
    | Time(event: Clock.Event)           // the time server, or a signal to it

  // ----- the parts of a step

  /** What the step is to the emergency protocol. */
  function ProtocolPart(c: Config, s: State, step: Step): Option<Emergency.Step> {
    match step
    case Pipe(PassClear(i)) => Some(Emergency.Pass(i))
    case Pipe(ReadStop(i, true)) =>
      if i < |s.p.ts| && s.p.ts[i].at == Pipeline.StopRegister then Some(Emergency.Register(i)) else None
    case Protect(es) => Some(es)
    case Time(ev) => Some(Emergency.Tick(Clock.After(Started(c), s.es + [ev]).published))
    case _ => None
  }

  /** The worker whose code a pipeline step is. */
  function WorkerOf(step: Pipeline.Step): Option<Emergency.Role> {
    match step
    case Receive => Some(Emergency.Lower)
    case Interrupt => Some(Emergency.Lower)
    case Decide(_) => Some(Emergency.Lower)
    case Requeue => Some(Emergency.Lower)
    case Depart(_) => Some(Emergency.Lower)
    case Confirm => Some(Emergency.Lower)
    case ReceiveArrival => Some(Emergency.Upper)
    case CountArrival => Some(Emergency.Upper)
    case _ => None
  }

  function DeskOf(s: State, r: Emergency.Role): Desk {
    if r == Emergency.Lower then s.lowerDesk else s.upperDesk
  }

  /** A worker receives from its queue, or its receive is interrupted. */
  predicate Takes(step: Pipeline.Step) {
    step.Receive? || step.Interrupt? || step.ReceiveArrival?
  }

  /** A worker has served somebody: a check for danger is due. */
  predicate Serves(p: Pipeline.State, step: Pipeline.Step) {
    || step.CountArrival?
    || (step.Decide? && !step.emergency && p.low.pc.InHand? && Pipeline.FitsOn(p.low, p.low.pc.req))
  }

  function DeskAfter(s: State, step: Step, r: Emergency.Role): Desk {
    match step
    case Pipe(ps) =>
      if WorkerOf(ps) != Some(r) then DeskOf(s, r)
      else if Serves(s.p, ps) then Checking
      else if Takes(ps) then Busy
      else DeskOf(s, r)
    case Protect(es) => if (es.Restart? || es.Danger?) && es.r == r then Open else DeskOf(s, r)
    case Time(_) => DeskOf(s, r)
  }

  /** The worker has nothing in hand: it can leave its queue. */
  predicate Idle(p: Pipeline.State, r: Emergency.Role) {
    if r == Emergency.Lower then p.low.pc.Loop? else p.up.hand.None?
  }

  /** The lower worker never goes back from an interrupted receive with a party pending: it sends
      the chair off first. */
  predicate LeavesNobody(s: State, r: Emergency.Role) {
    r == Emergency.Lower && s.e.lower.pc == Emergency.Work && s.lowerDesk == Open ==> s.p.low.pending == []
  }

  /** Whether the parts of the system agree to a step. */
  predicate Agreed(c: Config, s: State, step: Step) {
    match step
    case Pipe(ps) =>
      && (WorkerOf(ps).Some? ==> Emergency.W(s.e, WorkerOf(ps).value).pc == Emergency.Work)
      && (Takes(ps) ==> DeskOf(s, WorkerOf(ps).value) == Open)
      && (ps.ReadStop? || ps.Decide? ==> ps.emergency == s.e.stop)
    case Protect(es) =>
      && (es.Deliver? || es.Restart? || es.Danger? || es.Go?)
      && (es.Restart? || es.Danger? ==> Idle(s.p, es.r))
      && (es.Restart? ==> LeavesNobody(s, es.r))
      && (es.Danger? ==> c.pipe.danger && DeskOf(s, es.r) == Checking)
    case Time(ev) =>
      && Clock.LastTime(c.realStart, s.es) <= ev.at
      && (Clock.Stopped(s.es) ==> ev.Stop? || ev.Continue?)
  }

  predicate Enabled(c: Config, s: State, step: Step)
    requires ValidConfig(c)
  {
    && Agreed(c, s, step)
    && (step.Pipe? ==> Pipeline.Enabled(c.pipe, s.p, step.move))
    && var part := ProtocolPart(c, s, step);
       part.Some? ==> Emergency.Enabled(Protocol(c), s.e, part.value)
  }

  predicate Acquires(s: State, step: Step) {
    && step.Protect? && step.act.Go? && s.e.lock > 0
    && Emergency.W(s.e, step.act.r).pc == Emergency.TryLock
  }

  predicate Detects(step: Step, r: Emergency.Role) {
    step.Protect? && step.act == Emergency.Danger(r)
  }

  /** Lengths of the clock's history when a worker detected its dangers. */
  function Seen(s: State, r: Emergency.Role): seq<nat> {
    if r == Emergency.Lower then s.lowerSeen else s.upperSeen
  }

  function Apply(c: Config, s: State, step: Step): State
    requires ValidConfig(c) && Enabled(c, s, step)
  {
    var part := ProtocolPart(c, s, step);
    State(if step.Pipe? then Pipeline.Apply(c.pipe, s.p, step.move) else s.p,
          if part.Some? then Emergency.Apply(Protocol(c), s.e, part.value) else s.e,
          if step.Time? then s.es + [step.event] else s.es,
          if Acquires(s, step) then |s.es| else s.since,
          if Detects(step, Emergency.Lower) then s.lowerSeen + [|s.es|] else s.lowerSeen,
          if Detects(step, Emergency.Upper) then s.upperSeen + [|s.es|] else s.upperSeen,
          DeskAfter(s, step, Emergency.Lower),
          DeskAfter(s, step, Emergency.Upper))
  }

  ghost predicate Next(c: Config, s: State, s': State)
    requires ValidConfig(c)
  {
    exists step :: Enabled(c, s, step) && s' == Apply(c, s, step)
  }

  ghost predicate StepsAt(c: Config, tr: seq<State>, n: nat)
    requires ValidConfig(c) && n < |tr| - 1
  {
    Pipeline.DistinctIds(tr[n].p) && Next(c, tr[n], tr[n + 1])
  }

  /** A run: from the initial state, step by step, through states without a reused chair id. */
  ghost predicate Run(c: Config, tr: seq<State>)
    requires ValidConfig(c)
  {
    && |tr| > 0 && tr[0] == Init(c)
    && forall n | 0 <= n < |tr| - 1 :: StepsAt(c, tr, n)
  }
}
