/** What the clock shows, after every history of events. */
module ClockTheorems {
  import opened Clock

  // ----- the server agrees with the history

  lemma Prefixes(start: real, es: seq<Event>, m: nat)
    requires m <= |es| && History(start, es)
    ensures History(start, es[..m])
  {
    assert forall n | 0 <= n < m :: es[..m][..n] == es[..n] && es[..m][n] == es[n];
  }

  lemma {:induction false} StoppedIsUnsettled(start: real, es: seq<Event>)
    requires History(start, es)
    ensures Stopped(es) ==> Unsettled(es)
  {
    if es != [] {
      Prefixes(start, es, |es| - 1);
      StoppedIsUnsettled(start, es[..|es| - 1]);
    }
  }

  /** How much the last event adds to the time counted: all of the lapse between pauses, nothing
      during a pause, and a whole pause when a stop overtakes its settling. */
  lemma CountedStep(start: real, es: seq<Event>)
    requires History(start, es) && es != []
    ensures var before, e := es[..|es| - 1], es[|es| - 1];
            Counted(start, es) == Counted(start, before)
              + (if !Unsettled(before) then Lapse(start, es)
                 else if Overtakes(before, e) then e.at - PauseBegan(start, before) else 0.0)
  {
    Prefixes(start, es, |es| - 1);
    StoppedIsUnsettled(start, es[..|es| - 1]);
  }

  lemma {:induction false} PauseBeganBefore(start: real, es: seq<Event>)
    requires History(start, es)
    ensures start <= PauseBegan(start, es) <= LastTime(start, es)
  {
    if es != [] {
      Prefixes(start, es, |es| - 1);
      PauseBeganBefore(start, es[..|es| - 1]);
    }
  }

  lemma {:induction false} CountedGrows(start: real, es: seq<Event>, m: nat)
    requires History(start, es) && m <= |es|
    ensures 0.0 <= Counted(start, es[..m]) <= Counted(start, es)
    decreases |es|
  {
    assert es[..|es|] == es;
    if es != [] {
      var before := es[..|es| - 1];
      Prefixes(start, es, |es| - 1);
      CountedStep(start, es);
      PauseBeganBefore(start, before);
      if m < |es| {
        assert before[..m] == es[..m];
        CountedGrows(start, before, m);
      } else {
        CountedGrows(start, before, 0);
      }
    }
  }

  /** What the server keeps, told from the history alone: its handler is installed just while
      the process runs, its flag is up just while a pause is unsettled, and its offset and the
      start of that pause account for everything not counted. */
  ghost predicate Agrees(s: Server, start: real, es: seq<Event>) {
    && s.realStart == start
    && s.armed == !Stopped(es) && s.paused == Unsettled(es)
    && (Unsettled(es) && !Stopped(es) ==> s.contReceived)
    && (Unsettled(es) ==> s.pauseStart == PauseBegan(start, es))
    && Counted(start, es) ==
         (if Unsettled(es) then PauseBegan(start, es) else LastTime(start, es)) - start - s.offset
  }

  lemma EventAgrees(s: Server, start: real, es: seq<Event>)
    requires es != [] && History(start, es) && Agrees(s, start, es[..|es| - 1])
    ensures Agrees(Clock.Apply(s, es[|es| - 1]), start, es)
    ensures Clock.Apply(s, es[|es| - 1]).day == s.day
  {
    CountedStep(start, es);
    Prefixes(start, es, |es| - 1);
    StoppedIsUnsettled(start, es[..|es| - 1]);
  }

  lemma {:induction false} ServerAgrees(day: Day, start: real, es: seq<Event>)
    requires History(start, es)
    ensures Agrees(After(Started(day, start), es), start, es)
    ensures After(Started(day, start), es).day == day
  {
    if es != [] {
      Prefixes(start, es, |es| - 1);
      ServerAgrees(day, start, es[..|es| - 1]);
      EventAgrees(After(Started(day, start), es[..|es| - 1]), start, es);
    }
  }

  // ----- what a tick publishes

  lemma TickElapsed(s: Server, start: real, es: seq<Event>)
    requires es != [] && History(start, es) && es[|es| - 1].Tick? && Agrees(s, start, es[..|es| - 1])
    ensures Effective(s, es[|es| - 1].at) == Counted(start, es)
  {
    CountedStep(start, es);
  }

  lemma Publishes(s: Server, now: real, x: real)
    requires Effective(s, now) == x && 0.0 <= x
    ensures UpdateSimTime(s, now).published == SimMs(s.day, x)
  {
  }

  /** A tick publishes the start of the day plus the accelerated time counted so far, which the
      history alone determines; the clamp at zero is never needed. */
  lemma TickPublishesCounted(day: Day, start: real, es: seq<Event>)
    requires History(start, es) && es != [] && es[|es| - 1].Tick?
    ensures After(Started(day, start), es).published == SimMs(day, Counted(start, es))
    ensures 0.0 <= Counted(start, es)
  {
    var s := After(Started(day, start), es[..|es| - 1]);
    Prefixes(start, es, |es| - 1);
    ServerAgrees(day, start, es[..|es| - 1]);
    TickElapsed(s, start, es);
    CountedGrows(start, es, 0);
    Publishes(s, es[|es| - 1].at, Counted(start, es));
  }

  // ----- when the time counted is the running time

  /** No time passes between a pause and its settling: whatever happens to the running process
      before the pause is settled happens at once, or is a stop that overtakes a pause of no length. */
  ghost predicate Prompt(start: real, es: seq<Event>) {
    forall n | 0 <= n < |es| && !Stopped(es[..n]) && Unsettled(es[..n]) ::
      LastTime(start, es[..n]) == if es[n].Stop? then PauseBegan(start, es[..n]) else es[n].at
  }

  /** The clock has counted exactly the running time at every moment so far. */
  ghost predicate AlwaysExact(start: real, es: seq<Event>) {
    forall m | 0 <= m <= |es| :: Counted(start, es[..m]) == Running(start, es[..m])
  }

  lemma AlwaysExactFrom(start: real, es: seq<Event>)
    requires es != []
    ensures AlwaysExact(start, es) <==>
              AlwaysExact(start, es[..|es| - 1]) && Counted(start, es) == Running(start, es)
  {
    var before := es[..|es| - 1];
    assert es[..|es|] == es;
    assert forall m | 0 <= m <= |before| :: before[..m] == es[..m];
    if AlwaysExact(start, before) && Counted(start, es) == Running(start, es) {
      forall m | 0 <= m <= |es| ensures Counted(start, es[..m]) == Running(start, es[..m]) {
        assert m < |es| ==> es[..m] == before[..m];
      }
    }
    if AlwaysExact(start, es) {
      forall m | 0 <= m <= |before| ensures Counted(start, before[..m]) == Running(start, before[..m]) {
        assert before[..m] == es[..m];
      }
    }
  }

  ghost predicate PromptAt(start: real, before: seq<Event>, e: Event) {
    !Stopped(before) && Unsettled(before) ==>
      LastTime(start, before) == if e.Stop? then PauseBegan(start, before) else e.at
  }

  lemma PromptFrom(start: real, es: seq<Event>)
    requires es != []
    ensures Prompt(start, es) <==> Prompt(start, es[..|es| - 1]) && PromptAt(start, es[..|es| - 1], es[|es| - 1])
  {
    var before := es[..|es| - 1];
    assert forall n | 0 <= n < |before| :: before[..n] == es[..n] && before[n] == es[n];
    if Prompt(start, before) && PromptAt(start, before, es[|es| - 1]) {
      forall n | 0 <= n < |es| && !Stopped(es[..n]) && Unsettled(es[..n])
        ensures LastTime(start, es[..n]) == if es[n].Stop? then PauseBegan(start, es[..n]) else es[n].at
      {
        assert n < |before| ==> es[..n] == before[..n];
      }
    }
    if Prompt(start, es) {
      forall n | 0 <= n < |before| && !Stopped(before[..n]) && Unsettled(before[..n])
        ensures LastTime(start, before[..n]) == if before[n].Stop? then PauseBegan(start, before[..n]) else before[n].at
      {
        assert before[..n] == es[..n];
      }
    }
  }

  /** The clock counts exactly the time the process is not stopped, at every moment of a history,
      if and only if no time passes between the end of a pause and its settling. */
  lemma {:induction false} ExactIffPrompt(start: real, es: seq<Event>)
    requires History(start, es)
    ensures AlwaysExact(start, es) <==> Prompt(start, es)
  {
    if es != [] {
      Prefixes(start, es, |es| - 1);
      ExactIffPrompt(start, es[..|es| - 1]);
      AlwaysExactFrom(start, es);
      PromptFrom(start, es);
      CountedStep(start, es);
      assert es[..|es| - 1][..|es| - 1] == es[..|es| - 1];
    }
  }

  lemma {:induction false} NothingOvertaken(start: real, es: seq<Event>)
    requires SettledBeforeStop(es)
    ensures Overtaken(start, es) == 0.0
  {
    if es != [] {
      var before := es[..|es| - 1];
      assert forall n | 0 <= n < |before| :: before[..n] == es[..n] && before[n] == es[n];
      NothingOvertaken(start, before);
    }
  }

  /** While paused, what a tick publishes does not depend on the time it reads. */
  lemma PausedTickIgnoresNow(s: Server, a: real, b: real)
    requires s.paused
    ensures UpdateSimTime(s, a).published == UpdateSimTime(s, b).published
  {
    assert a - s.realStart - s.offset - (a - s.pauseStart) == b - s.realStart - s.offset - (b - s.pauseStart);
  }

  // ----- monotonicity

  /** Time counted up to the last tick. */
  function CountedAtTick(start: real, es: seq<Event>): real {
    if es == [] then 0.0
    else if es[|es| - 1].Tick? then Counted(start, es)
    else CountedAtTick(start, es[..|es| - 1])
  }

  lemma MsGrow(day: Day, x: real, y: real)
    requires day.acceleration >= 0.0 && x <= y
    ensures SimMs(day, x) <= SimMs(day, y)
  {
    assert x * day.acceleration <= y * day.acceleration by {
      assert (y - x) * day.acceleration >= 0.0;
    }
  }

  lemma {:induction false} PublishedIsCounted(day: Day, start: real, es: seq<Event>)
    requires History(start, es)
    ensures After(Started(day, start), es).published == SimMs(day, CountedAtTick(start, es))
    ensures 0.0 <= CountedAtTick(start, es) <= Counted(start, es)
  {
    if es != [] {
      var before := es[..|es| - 1];
      Prefixes(start, es, |es| - 1);
      if es[|es| - 1].Tick? {
        TickPublishesCounted(day, start, es);
      } else {
        PublishedIsCounted(day, start, before);
        CountedGrows(start, es, |es| - 1);
      }
    }
  }

  /** Published time never decreases. */
  lemma {:induction false} PublishedGrows(day: Day, start: real, es: seq<Event>, m: nat)
    requires ValidDay(day) && History(start, es) && m <= |es|
    ensures After(Started(day, start), es[..m]).published <= After(Started(day, start), es).published
    decreases |es|
  {
    if m == |es| {
      assert es[..m] == es;
    } else {
      var before := es[..|es| - 1];
      Prefixes(start, es, |es| - 1);
      assert before[..m] == es[..m];
      PublishedGrows(day, start, before, m);
      PublishedIsCounted(day, start, before);
      PublishedIsCounted(day, start, es);
      CountedGrows(start, es, |es| - 1);
      MsGrow(day, CountedAtTick(start, before), CountedAtTick(start, es));
    }
  }

  /** Over every history in which each pause is settled before the next stop, a tick publishes
      the start of the day plus the acceleration times the time the process was not stopped, but
      for the lag with which pauses were settled; without that lag, times exactly that time. No
      tick publishes less than an earlier one. */
  lemma PauseFreeClock(day: Day, start: real, es: seq<Event>, m: nat)
    requires ValidDay(day) && History(start, es) && m <= |es|
    requires es != [] && es[|es| - 1].Tick?
    ensures SettledBeforeStop(es) ==>
              After(Started(day, start), es).published
              == SimMs(day, Running(start, es) - Lag(start, es))
    ensures Prompt(start, es) ==>
              After(Started(day, start), es).published == SimMs(day, Running(start, es))
    ensures After(Started(day, start), es[..m]).published <= After(Started(day, start), es).published
  {
    TickPublishesCounted(day, start, es);
    PublishedGrows(day, start, es, m);
    if SettledBeforeStop(es) { NothingOvertaken(start, es); }
    if Prompt(start, es) { PromptCountsExactly(start, es); }
  }

  lemma PromptCountsExactly(start: real, es: seq<Event>)
    requires History(start, es) && Prompt(start, es)
    ensures Counted(start, es) == Running(start, es)
  {
    ExactIffPrompt(start, es);
    assert es[..|es|] == es;
  }

  /** From `m` on, one and the same pause is unsettled. */
  ghost predicate OnePause(es: seq<Event>, m: nat) {
    && m <= |es|
    && (forall n | m <= n <= |es| :: Unsettled(es[..n]))
    && (forall n | m <= n < |es| :: !Overtakes(es[..n], es[n]))
  }

  lemma {:induction false} PauseCountsNothing(start: real, es: seq<Event>, m: nat)
    requires History(start, es) && OnePause(es, m)
    ensures Counted(start, es) == Counted(start, es[..m])
    decreases |es|
  {
    if m == |es| {
      assert es[..m] == es;
    } else {
      var last := |es| - 1;
      var before := es[..last];
      Prefixes(start, es, last);
      assert forall n | 0 <= n <= last :: before[..n] == es[..n];
      PauseCountsNothing(start, before, m);
      assert Unsettled(es[..last]) && !Overtakes(es[..last], es[last]);
      CountedStep(start, es);
    }
  }

  /** As long as a pause is unsettled the clock stands still: every tick in it publishes what was
      counted when it began, whatever time has passed. */
  lemma StandsStillWhilePaused(day: Day, start: real, es: seq<Event>, m: nat)
    requires History(start, es) && OnePause(es, m) && m < |es| && es[|es| - 1].Tick?
    ensures After(Started(day, start), es).published == SimMs(day, Counted(start, es[..m]))
  {
    PauseCountsNothing(start, es, m);
    TickPublishesCounted(day, start, es);
  }

  lemma ExpiredLater(s: Server, s': Server, t: Ticket, validUntil: int, rides: nat, later: nat)
    requires s.published <= s'.published && rides <= later && !TicketValid(s, t, validUntil, rides)
    ensures !TicketValid(s', t, validUntil, later)
  {
  }

  /** A ticket found expired is never valid again. */
  lemma ExpiredStaysExpired(day: Day, start: real, es: seq<Event>, m: nat,
                            t: Ticket, validUntil: int, rides: nat, later: nat)
    requires ValidDay(day) && History(start, es) && m <= |es| && rides <= later
    requires !TicketValid(After(Started(day, start), es[..m]), t, validUntil, rides)
    ensures !TicketValid(After(Started(day, start), es), t, validUntil, later)
  {
    var s0 := Started(day, start);
    PublishedGrows(day, start, es, m);
    ExpiredLater(After(s0, es[..m]), After(s0, es), t, validUntil, rides, later);
  }

  // ----- the end of the day

  lemma FloorReaches(x: real, e: int)
    requires 0.0 <= x
    ensures SimMinutes(Truncate(x * 60.0 * 1000.0)) >= e <==> x >= e as real
  {
    var ms := (x * 60.0 * 1000.0).Floor;
    assert ms / 60000 >= e <==> ms >= 60000 * e;
    assert ms >= 60000 * e <==> x * 60000.0 >= (60000 * e) as real;
  }

  lemma AccelerationReaches(day: real, seconds: real, elapsed: real)
    requires day > 0.0 && seconds > 0.0
    ensures elapsed * (day / seconds) >= day <==> elapsed >= seconds
  {
    var a := day / seconds;
    assert a > 0.0 && seconds * a == day;
    assert (elapsed - seconds) * a == elapsed * a - day;
    if elapsed >= seconds {
      assert (elapsed - seconds) * a >= 0.0;
    } else {
      assert (seconds - elapsed) * a > 0.0;
    }
  }

  lemma OverIffReached(day: Day, seconds: real, x: real)
    requires seconds > 0.0 && 0 <= day.start < day.end && x >= 0.0
    requires day.acceleration == (day.end - day.start) as real / seconds
    ensures SimMinutes(SimMs(day, x)) >= day.end <==> x >= seconds
  {
    var length := (day.end - day.start) as real;
    AccelerationReaches(length, seconds, x);
    assert day.acceleration > 0.0;
    ProductSign(x, day.acceleration);
    FloorReaches(day.start as real + x * day.acceleration, day.end);
  }

  lemma ProductSign(x: real, y: real)
    requires x >= 0.0 && y >= 0.0
    ensures x * y >= 0.0
  {
  }

  lemma TimeInitIsValid(c: Config)
    requires ValidConfig(c)
    ensures ValidDay(TimeInit(c))
  {
  }

  /** Through both truncations, the simulation is over exactly when the time counted up to the
      last tick has reached the configured duration. */
  lemma OverIffDurationReached(c: Config, start: real, es: seq<Event>)
    requires ValidConfig(c) && History(start, es)
    ensures SimulationOver(After(Started(TimeInit(c), start), es))
            <==> CountedAtTick(start, es) >= c.durationReal as real
  {
    TimeInitIsValid(c);
    PublishedIsCounted(TimeInit(c), start, es);
    ServerAgrees(TimeInit(c), start, es);
    OverIffReached(TimeInit(c), c.durationReal as real, CountedAtTick(start, es));
  }

  /** After a tick, with every pause settled before the next stop, the simulation is over exactly
      when the time the process was not stopped, but for the lag of settling, has reached the
      configured duration; without lag, exactly when that time itself has. */
  lemma ExactEndOfDay(c: Config, start: real, es: seq<Event>)
    requires ValidConfig(c) && History(start, es) && es != [] && es[|es| - 1].Tick?
    ensures SettledBeforeStop(es) ==>
              (SimulationOver(After(Started(TimeInit(c), start), es))
               <==> Running(start, es) - Lag(start, es) >= c.durationReal as real)
    ensures Prompt(start, es) ==>
              (SimulationOver(After(Started(TimeInit(c), start), es))
               <==> Running(start, es) >= c.durationReal as real)
  {
    OverIffDurationReached(c, start, es);
    if SettledBeforeStop(es) { NothingOvertaken(start, es); }
    if Prompt(start, es) {
      ExactIffPrompt(start, es);
      assert es[..|es|] == es;
    }
  }

  /** A daily ticket, whenever it was sold, is valid until the day is over. */
  lemma DailyTicketLastsTheDay(c: Config, start: real, es: seq<Event>, m: nat, t1: int, t2: int, t3: int, rides: nat)
    requires ValidConfig(c) && History(start, es) && m <= |es|
    ensures var s0 := Started(TimeInit(c), start);
            var soldAt, s := After(s0, es[..m]), After(s0, es);
            TicketValid(s, Daily, TicketValidity(soldAt, Daily, t1, t2, t3), rides)
            <==> CountedAtTick(start, es) < c.durationReal as real
  {
    Prefixes(start, es, m);
    ServerAgrees(TimeInit(c), start, es);
    ServerAgrees(TimeInit(c), start, es[..m]);
    OverIffDurationReached(c, start, es);
  }

  /** Whole minutes the published clock has advanced since the start of the minute of the sale. */
  function MinutesSince(sold: int, now: int): int {
    (now - (sold - sold % 60000)) / 60000
  }

  lemma TimedTicket(sold: int, now: int, minutes: int)
    requires 0 <= sold <= now
    ensures SimMinutes(now) < SimMinutes(sold) + minutes <==> MinutesSince(sold, now) < minutes
  {
    assert sold - sold % 60000 == 60000 * SimMinutes(sold);
    assert now == 60000 * SimMinutes(now) + now % 60000;
    assert now - 60000 * SimMinutes(sold) == 60000 * (SimMinutes(now) - SimMinutes(sold)) + now % 60000;
  }

  lemma PublishedFromZero(day: Day, start: real, es: seq<Event>)
    requires ValidDay(day) && History(start, es)
    ensures 0 <= After(Started(day, start), es).published
  {
    assert es[..0] == [];
    PublishedGrows(day, start, es, 0);
  }

  /** A timed ticket, whenever it was sold, is valid if and only if fewer whole minutes have been
      published since the start of the minute of the sale than its kind allows: t1, t2 or t3. A single
      ticket is valid if and only if no ride has been made on it. */
  lemma TicketsLast(day: Day, start: real, es: seq<Event>, m: nat, t1: int, t2: int, t3: int, rides: nat)
    requires ValidDay(day) && History(start, es) && m <= |es|
    ensures var soldAt, s := After(Started(day, start), es[..m]), After(Started(day, start), es);
            var passed := MinutesSince(soldAt.published, s.published);
            && (TicketValid(s, TimeT1, TicketValidity(soldAt, TimeT1, t1, t2, t3), rides) <==> passed < t1)
            && (TicketValid(s, TimeT2, TicketValidity(soldAt, TimeT2, t1, t2, t3), rides) <==> passed < t2)
            && (TicketValid(s, TimeT3, TicketValidity(soldAt, TimeT3, t1, t2, t3), rides) <==> passed < t3)
            && (TicketValid(s, Single, TicketValidity(soldAt, Single, t1, t2, t3), rides) <==> rides == 0)
  {
    var sold, now := After(Started(day, start), es[..m]).published, After(Started(day, start), es).published;
    Prefixes(start, es, m);
    PublishedFromZero(day, start, es[..m]);
    PublishedGrows(day, start, es, m);
    TimedTicket(sold, now, t1);
    TimedTicket(sold, now, t2);
    TimedTicket(sold, now, t3);
  }

  /** What a clock publishes at the end of a day of `length` minutes in so many seconds. */
  lemma EndOfDayIs(day: Day, length: int, seconds: real)
    requires seconds > 0.0 && length > 0 && 0 <= day.start && day.acceleration == length as real / seconds
    ensures SimMs(day, seconds) == (day.start + length) * 60000 && SimMs(day, 0.0) == day.start * 60000
  {
    assert seconds * (length as real / seconds) == length as real;
    var x := day.start as real + seconds * day.acceleration;
    assert x == (day.start + length) as real;
    assert x * 60.0 * 1000.0 == ((day.start + length) * 60000) as real;
    assert day.start as real * 60.0 * 1000.0 == (day.start * 60000) as real;
  }

  /** The day goes from its configured start, shown from the beginning, to its configured end, shown
      by a tick when the time counted is the configured duration. */
  lemma DayRunsToItsEnd(c: Config, start: real, es: seq<Event>)
    requires ValidConfig(c) && History(start, es)
    ensures CountedAtTick(start, es) == 0.0 ==>
              After(Started(TimeInit(c), start), es).published == (c.startHour * 60 + c.startMinute) * 60000
    ensures CountedAtTick(start, es) == c.durationReal as real ==>
              After(Started(TimeInit(c), start), es).published == (c.endHour * 60 + c.endMinute) * 60000
  {
    var day := TimeInit(c);
    PublishedIsCounted(day, start, es);
    EndOfDayIs(day, day.end - day.start, c.durationReal as real);
  }

  // ----- how much running time a published interval takes

  /** Time counted since the last tick: how stale the published time is. */
  function Stale(start: real, es: seq<Event>): real {
    Counted(start, es) - CountedAtTick(start, es)
  }

  lemma FloorGap(a: real, b: real, ms: int)
    requires 0.0 <= a && 0.0 <= b && Truncate(b) - Truncate(a) >= ms
    ensures b - a > (ms - 1) as real
  {
  }

  lemma StartGap(start: int, p: real, q: real, ms: int)
    requires 0 <= start && 0.0 <= p && 0.0 <= q
    requires Truncate((start as real + q) * 60.0 * 1000.0) - Truncate((start as real + p) * 60.0 * 1000.0) >= ms
    ensures (q - p) * 60000.0 > (ms - 1) as real
  {
    var a, b := (start as real + p) * 60.0 * 1000.0, (start as real + q) * 60.0 * 1000.0;
    assert start as real >= 0.0;
    assert 0.0 <= start as real + p && 0.0 <= start as real + q;
    assert b - a == (q - p) * 60000.0;
    FloorGap(a, b, ms);
  }

  /** Simulated minutes that some running time amounts to. */
  function Simulated(day: Day, x: real): real {
    x * day.acceleration
  }

  lemma SimMsFrom(day: Day, x: real, p: real)
    requires p == Simulated(day, x)
    ensures SimMs(day, x) == Truncate((day.start as real + p) * 60.0 * 1000.0)
  {
  }

  lemma SimulatedGap(day: Day, x: real, y: real, p: real, q: real, ms: int)
    requires 0 <= day.start && 0.0 <= p == Simulated(day, x) && 0.0 <= q == Simulated(day, y)
    requires SimMs(day, y) - SimMs(day, x) >= ms
    ensures (q - p) * 60000.0 > (ms - 1) as real
  {
    SimMsFrom(day, x, p);
    SimMsFrom(day, y, q);
    StartGap(day.start, p, q, ms);
  }

  lemma SimulatedGrows(day: Day, x: real, y: real)
    requires 0.0 <= x <= y && 0.0 <= day.acceleration
    ensures 0.0 <= Simulated(day, x) <= Simulated(day, y)
  {
  }

  /** The amount of time advances the day by more than `ms` milliseconds less one. */
  predicate Takes(day: Day, time: real, ms: int) {
    Simulated(day, time) * 60000.0 > (ms - 1) as real
  }

  lemma SimulatedDifference(day: Day, x: real, y: real)
    ensures Simulated(day, y) - Simulated(day, x) == Simulated(day, y - x)
  {
  }

  lemma TickGap(day: Day, x: real, y: real, time: real, ms: int)
    requires 0 <= day.start && 0.0 <= day.acceleration && 0.0 <= x && 0.0 <= y <= x + time
    requires SimMs(day, y) - SimMs(day, x) >= ms
    ensures Takes(day, time, ms)
  {
    SimulatedGrows(day, 0.0, x);
    SimulatedGrows(day, 0.0, y);
    SimulatedGrows(day, y, x + time);
    SimulatedGap(day, x, y, Simulated(day, x), Simulated(day, y), ms);
    SimulatedDifference(day, x, x + time);
  }

  lemma {:induction false} SumsGrow(start: real, es: seq<Event>, m: nat)
    requires History(start, es) && m <= |es|
    ensures Running(start, es[..m]) <= Running(start, es) && Lag(start, es[..m]) <= Lag(start, es)
    decreases |es|
  {
    if m == |es| {
      assert es[..m] == es;
    } else {
      var before := es[..|es| - 1];
      Prefixes(start, es, |es| - 1);
      assert before[..m] == es[..m];
      SumsGrow(start, before, m);
    }
  }

  lemma SettledPrefix(es: seq<Event>, m: nat)
    requires SettledBeforeStop(es) && m <= |es|
    ensures SettledBeforeStop(es[..m])
  {
    assert forall n | 0 <= n < m :: es[..m][..n] == es[..n] && es[..m][n] == es[n];
  }

  /** Running time between a moment of the history and its end. */
  function RunningSince(start: real, es: seq<Event>, m: nat): real
    requires m <= |es|
  {
    Running(start, es) - Running(start, es[..m])
  }

  /** The running time since a moment, with the staleness of the time published at that moment,
      takes more than some milliseconds less one. */
  predicate LastsBut(day: Day, start: real, es: seq<Event>, m: nat, ms: int)
    requires m <= |es|
  {
    Takes(day, RunningSince(start, es, m) + Stale(start, es[..m]), ms)
  }

  lemma CountsAtMostRunning(start: real, es: seq<Event>, m: nat)
    requires History(start, es) && SettledBeforeStop(es) && m <= |es|
    ensures Counted(start, es) - Counted(start, es[..m]) <= RunningSince(start, es, m)
  {
    SumsGrow(start, es, m);
    SettledPrefix(es, m);
    NothingOvertaken(start, es);
    NothingOvertaken(start, es[..m]);
  }

  /** When what was published for the time counted up to the last tick has advanced by some
      milliseconds since an earlier moment, the time counted since then, with the staleness of
      what was published at that moment, takes more than that less one millisecond. So does the
      running time since then, when no pause is overtaken. */
  lemma PublishedGap(day: Day, start: real, es: seq<Event>, m: nat, ms: int)
    requires 0 <= day.start && 0.0 <= day.acceleration && History(start, es) && m <= |es|
    requires 0.0 <= CountedAtTick(start, es) <= Counted(start, es) && 0.0 <= CountedAtTick(start, es[..m])
    requires SimMs(day, CountedAtTick(start, es)) - SimMs(day, CountedAtTick(start, es[..m])) >= ms
    ensures Takes(day, Counted(start, es) - Counted(start, es[..m]) + Stale(start, es[..m]), ms)
    ensures SettledBeforeStop(es) ==> LastsBut(day, start, es, m, ms)
  {
    var x, y := CountedAtTick(start, es[..m]), CountedAtTick(start, es);
    TickGap(day, x, y, Counted(start, es) - Counted(start, es[..m]) + Stale(start, es[..m]), ms);
    if SettledBeforeStop(es) {
      CountsAtMostRunning(start, es, m);
      TickGap(day, x, y, RunningSince(start, es, m) + Stale(start, es[..m]), ms);
    }
  }

  /** Running time and the published clock, for a time server of any valid configuration. */
  lemma RunningGap(day: Day, start: real, es: seq<Event>, m: nat, ms: int)
    requires ValidDay(day) && History(start, es) && m <= |es| && SettledBeforeStop(es)
    requires After(Started(day, start), es).published - After(Started(day, start), es[..m]).published >= ms
    ensures LastsBut(day, start, es, m, ms)
    ensures 0.0 <= Stale(start, es[..m])
  {
    Prefixes(start, es, m);
    PublishedIsCounted(day, start, es);
    PublishedIsCounted(day, start, es[..m]);
    PublishedGap(day, start, es, m, ms);
  }
}
