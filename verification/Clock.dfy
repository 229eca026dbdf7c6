/**
 The pause-compensated clock: what the time server publishes over any sequence of stops,
 continues, resumptions and ticks, in exact arithmetic.
 */
module Clock {

  // ----- configuration

  datatype Config = Config(startHour: int, startMinute: int, endHour: int, endMinute: int, durationReal: int)

  /** What configuration validation demands of the times. */
  predicate ValidConfig(c: Config) {
    && c.durationReal > 0
    && 0 <= c.startHour <= 23 && 0 <= c.endHour <= 23 && 0 <= c.startMinute <= 59 && 0 <= c.endMinute <= 59
    && c.endHour * 60 + c.endMinute > c.startHour * 60 + c.startMinute
  }

  /** The simulated day: start and end in minutes from midnight, simulated minutes per second. */
  datatype Day = Day(start: int, end: int, acceleration: real)

  function TimeInit(c: Config): Day {
    var start, end := c.startHour * 60 + c.startMinute, c.endHour * 60 + c.endMinute;
    Day(start, end, (end - start) as real / (if c.durationReal <= 0 then 60.0 else c.durationReal as real))
  }

  /** A day that ends after it starts, on a clock that runs forward. */
  predicate ValidDay(day: Day) {
    0 <= day.start < day.end && 0.0 < day.acceleration
  }

  // ----- the time server

  /** The time server's own variables, and the time it last published, in milliseconds. */
  datatype Server = Server(
    day: Day,
    realStart: real,
    paused: bool,
    contReceived: bool,
    armed: bool,             // whether the SIGTSTP handler is installed
    pauseStart: real,
    offset: real,
    published: int)

  /** C's conversion of a double to an integer. */
  function Truncate(x: real): int {
    if x >= 0.0 then x.Floor else -((-x).Floor)
  }

  function SimMs(day: Day, elapsed: real): int {
    Truncate((day.start as real + elapsed * day.acceleration) * 60.0 * 1000.0)
  }

  function Started(day: Day, realStart: real): Server {
    Server(day, realStart, false, false, true, 0.0, 0.0, day.start * 60 * 1000)
  }

  /** SIGTSTP: the handler records the time and is uninstalled; without it the process only stops. */
  function OnStop(s: Server, now: real): Server {
    if s.armed then s.(pauseStart := now, paused := true, armed := false) else s
  }

  function OnContinue(s: Server): Server {
    s.(contReceived := true, armed := true)
  }

  function HandleResume(s: Server, now: real): Server {
    if !s.contReceived then s
    else if s.paused then s.(contReceived := false, offset := s.offset + (now - s.pauseStart), paused := false)
    else s.(contReceived := false)
  }

  /** Elapsed time without the pauses accounted for and without the current one. */
  function Effective(s: Server, now: real): real {
    now - s.realStart - s.offset - (if s.paused then now - s.pauseStart else 0.0)
  }

  function UpdateSimTime(s: Server, now: real): Server {
    var elapsed := Effective(s, now);
    s.(published := SimMs(s.day, if elapsed < 0.0 then 0.0 else elapsed))
  }

  // ----- histories

  datatype Event = Stop(at: real) | Continue(at: real) | Resume(at: real) | Tick(at: real)

  function Apply(s: Server, e: Event): Server {
    match e
    case Stop(at) => OnStop(s, at)
    case Continue(_) => OnContinue(s)
    case Resume(at) => HandleResume(s, at)
    case Tick(at) => UpdateSimTime(s, at)
  }

  function After(s0: Server, es: seq<Event>): Server {
    if es == [] then s0 else Apply(After(s0, es[..|es| - 1]), es[|es| - 1])
  }

  function LastTime(start: real, es: seq<Event>): real {
    if es == [] then start else es[|es| - 1].at
  }

  /** The process is stopped: of all stops and continues the last is a stop. */
  predicate Stopped(es: seq<Event>) {
    es != [] &&
    match es[|es| - 1]
    case Stop(_) => true
    case Continue(_) => false
    case _ => Stopped(es[..|es| - 1])
  }

  /** Events come in the order of their times, and a stopped process runs none of its code. */
  ghost predicate History(start: real, es: seq<Event>) {
    forall n | 0 <= n < |es| ::
      && LastTime(start, es[..n]) <= es[n].at
      && (Stopped(es[..n]) ==> es[n].Stop? || es[n].Continue?)
  }

  // ----- what a history says about time, without looking at the server

  /** Time between the last two events. */
  function Lapse(start: real, es: seq<Event>): real
    requires es != []
  {
    es[|es| - 1].at - LastTime(start, es[..|es| - 1])
  }

  /** Real time during which the process was not stopped. */
  function Running(start: real, es: seq<Event>): real {
    if es == [] then 0.0
    else
      var before := es[..|es| - 1];
      Running(start, before) + (if Stopped(before) then 0.0 else Lapse(start, es))
  }

  /** A pause is unsettled from its stop until the process, continued, runs handle_resume. */
  predicate Unsettled(es: seq<Event>) {
    es != [] &&
    match es[|es| - 1]
    case Stop(_) => true
    case Resume(_) => false
    case _ => Unsettled(es[..|es| - 1])
  }

  /** When the last pause began: at a stop that found the process running. */
  function PauseBegan(start: real, es: seq<Event>): real {
    if es == [] then start
    else
      var before := es[..|es| - 1];
      if es[|es| - 1].Stop? && !Stopped(before) then es[|es| - 1].at else PauseBegan(start, before)
  }

  /** Running time that passed while the last pause was unsettled. */
  function Lag(start: real, es: seq<Event>): real {
    if es == [] then 0.0
    else
      var before := es[..|es| - 1];
      Lag(start, before) + (if !Stopped(before) && Unsettled(before) then Lapse(start, es) else 0.0)
  }

  /** A stop that overtakes the settling of the pause before it. */
  predicate Overtakes(es: seq<Event>, e: Event) {
    e.Stop? && !Stopped(es) && Unsettled(es)
  }

  /** Length of the pauses so overtaken, from the stop of each to the stop that overtakes it. */
  function Overtaken(start: real, es: seq<Event>): real {
    if es == [] then 0.0
    else
      var before, e := es[..|es| - 1], es[|es| - 1];
      Overtaken(start, before) + (if Overtakes(before, e) then e.at - PauseBegan(start, before) else 0.0)
  }

  /** Every pause is settled before the next stop. */
  ghost predicate SettledBeforeStop(es: seq<Event>) {
    forall n | 0 <= n < |es| :: !Overtakes(es[..n], es[n])
  }

  /** The time the clock counts: running time but for the lag after each pause, and with it the
      pauses that were overtaken. */
  function Counted(start: real, es: seq<Event>): real {
    Running(start, es) - Lag(start, es) + Overtaken(start, es)
  }

  // ----- readers

  function SimMinutes(ms: int): int {
    if ms >= 0 then ms / 60000 else -((-ms) / 60000)
  }

  predicate SimulationOver(s: Server) {
    SimMinutes(s.published) >= s.day.end
  }

  datatype Ticket = Single | TimeT1 | TimeT2 | TimeT3 | Daily

  /** Expiry of a ticket sold now, with the configured durations of the three timed tickets. */
  function TicketValidity(s: Server, t: Ticket, t1: int, t2: int, t3: int): int {
    match t
    case TimeT1 => SimMinutes(s.published) + t1
    case TimeT2 => SimMinutes(s.published) + t2
    case TimeT3 => SimMinutes(s.published) + t3
    case _ => s.day.end
  }

  predicate TicketValid(s: Server, t: Ticket, validUntil: int, rides: nat) {
    if t == Single then rides == 0 else SimMinutes(s.published) < validUntil
  }

  // ----- the time server as a process

  class TimeServer {
    const day: Day
    const realStart: real
    var paused: bool
    var contReceived: bool
    var armed: bool
    var pauseStart: real
    var totalPauseOffset: real
    var currentSimTimeMs: int

    function View(): Server
      reads this
    {
      Server(day, realStart, paused, contReceived, armed, pauseStart, totalPauseOffset, currentSimTimeMs)
    }

    constructor (today: Day, now: real)
      ensures View() == Started(today, now)
    {
      day := today;
      realStart := now;
      paused, contReceived, armed := false, false, true;
      pauseStart, totalPauseOffset := 0.0, 0.0;
      new;
      currentSimTimeMs := day.start * 60 * 1000;
    }

    method SigTstp(now: real)
      modifies this
      ensures View() == OnStop(old(View()), now)
    {
      if armed {
        armed := false;
        pauseStart := now;
        paused := true;
      }
    }

    method SigCont()
      modifies this
      ensures View() == OnContinue(old(View()))
    {
      contReceived := true;
      armed := true;
    }

    method Resume(now: real)
      modifies this
      ensures View() == HandleResume(old(View()), now)
    {
      if !contReceived { return; }
      contReceived := false;
      if paused {
        var pauseDuration := now - pauseStart;
        totalPauseOffset := totalPauseOffset + pauseDuration;
        paused := false;
      }
    }

    method Update(now: real)
      modifies this
      ensures View() == UpdateSimTime(old(View()), now)
    {
      var elapsed := now - realStart - totalPauseOffset;
      if paused {
        var currentPause := now - pauseStart;
        elapsed := elapsed - currentPause;
      }
      if elapsed < 0.0 { elapsed := 0.0; }
      var simMinutes := day.start as real + elapsed * day.acceleration;
      currentSimTimeMs := Truncate(simMinutes * 60.0 * 1000.0);
    }
  }
}
