/**
 How long emergencies last in running time, the real time during which the time server is not
 stopped: at least the danger duration but for the staleness of the published clock, and without
 that allowance only when no emergency can happen or none needs to last.
 */
module Tenures {
  import Emergency
  import EmergencyTheorems
  import Clock
  import ClockTheorems
  import opened Ropeway
  import opened RopewayTheorems

  /** Running time between a moment of the clock's history and its end. */
  function RunningSince(c: Config, es: seq<Clock.Event>, m: nat): real
    requires m <= |es|
  {
    ClockTheorems.RunningSince(c.realStart, es, m)
  }

  /** The danger duration in simulated milliseconds. */
  function DurationMs(c: Config): int {
    c.duration * Emergency.MS_PER_MINUTE
  }

  // ----- tenures

  lemma ShownSince(c: Config, s: State, r: Emergency.Role)
    requires ValidConfig(c) && OnTime(c, s) && EmergencyTheorems.Protocol(Protocol(c), s.e)
    requires Emergency.W(s.e, r).pc == Emergency.Unlock
    ensures Clock.After(Started(c), s.es).published - Clock.After(Started(c), s.es[..s.since]).published
            >= DurationMs(c)
  {
    var w := Emergency.W(s.e, r);
    assert w.holds && Emergency.Elapsed(Protocol(c), s.e.now, w.start) && w.acquired <= w.start;
  }

  /** When a worker is about to release the lock, the published clock has advanced by the whole
      danger duration since it acquired it; the running time since then, with the staleness of the
      time published at that moment, takes more than the duration less one millisecond. */
  lemma TenureRunning(c: Config, tr: seq<State>, n: nat, r: Emergency.Role)
    requires ValidConfig(c) && PositiveStart(c) && Run(c, tr) && n < |tr|
    requires Emergency.W(tr[n].e, r).pc == Emergency.Unlock && Clock.SettledBeforeStop(tr[n].es)
    ensures var s := tr[n];
            && s.since <= |s.es|
            && Clock.After(Started(c), s.es).published - Clock.After(Started(c), s.es[..s.since]).published
               >= DurationMs(c)
            && ClockTheorems.LastsBut(c.day, c.realStart, s.es, s.since, DurationMs(c))
  {
    RunOnTime(c, tr, n);
    InvariantHolds(c, tr, n);
    ShownSince(c, tr[n], r);
    ClockTheorems.RunningGap(c.day, c.realStart, tr[n].es, tr[n].since, DurationMs(c));
  }

  // ----- dangers

  /** Each danger in a worker's log was detected at the published time of the moment noted. */
  ghost predicate Noted(c: Config, s: State, r: Emergency.Role) {
    var seen, dangers := Seen(s, r), Emergency.Dangers(s.e, r);
    && |seen| == |dangers|
    && (forall i | 0 <= i < |seen| ::
          seen[i] <= |s.es| && dangers[i] == Clock.After(Started(c), s.es[..seen[i]]).published)
    && (forall i, j | 0 <= i < j < |seen| :: seen[i] <= seen[j])
  }

  /** A step notes a danger at the present moment, or none. */
  lemma StepDangers(c: Config, s: State, step: Step, r: Emergency.Role)
    requires ValidConfig(c) && Enabled(c, s, step)
    ensures var s' := Apply(c, s, step);
            && Emergency.Dangers(s'.e, r) ==
                 Emergency.Dangers(s.e, r) + (if Detects(step, r) then [s.e.now] else [])
            && Seen(s', r) == Seen(s, r) + (if Detects(step, r) then [|s.es|] else [])
            && s.es == s'.es[..|s.es|]
            && |s.es| <= |s'.es|
            && (Detects(step, r) ==> s'.es == s.es)
  {
    var part := ProtocolPart(c, s, step);
    if part.Some? { EmergencyTheorems.ActDangers(Protocol(c), s.e, part.value, r); }
  }

  lemma NotedGrows(c: Config, s: State, s': State, r: Emergency.Role, detects: bool)
    requires Noted(c, s, r) && OnTime(c, s)
    requires Emergency.Dangers(s'.e, r) == Emergency.Dangers(s.e, r) + (if detects then [s.e.now] else [])
    requires Seen(s', r) == Seen(s, r) + (if detects then [|s.es|] else [])
    requires |s.es| <= |s'.es| && s.es == s'.es[..|s.es|]
    ensures Noted(c, s', r)
  {
    var seen, seen' := Seen(s, r), Seen(s', r);
    forall i | 0 <= i < |seen'|
      ensures seen'[i] <= |s'.es|
      ensures Emergency.Dangers(s'.e, r)[i] == Clock.After(Started(c), s'.es[..seen'[i]]).published
    {
      if i < |seen| { assert s'.es[..seen[i]] == s.es[..seen[i]]; }
    }
  }

  lemma InitNoted(c: Config, r: Emergency.Role)
    requires ValidConfig(c)
    ensures Noted(c, Init(c), r)
  {
    assert Seen(Init(c), r) == [] && Emergency.Dangers(Init(c).e, r) == [];
  }

  lemma StepKeepsNoted(c: Config, s: State, step: Step, r: Emergency.Role)
    requires ValidConfig(c) && Enabled(c, s, step) && Noted(c, s, r) && OnTime(c, s)
    ensures Noted(c, Apply(c, s, step), r)
  {
    StepDangers(c, s, step, r);
    NotedGrows(c, s, Apply(c, s, step), r, Detects(step, r));
  }

  lemma NextNoted(c: Config, tr: seq<State>, n: nat, r: Emergency.Role)
    requires ValidConfig(c) && PositiveStart(c) && Run(c, tr) && 0 < n < |tr| && Noted(c, tr[n - 1], r)
    ensures Noted(c, tr[n], r)
  {
    RunOnTime(c, tr, n - 1);
    var step := StepAt(c, tr, n - 1);
    StepKeepsNoted(c, tr[n - 1], step, r);
  }

  lemma {:induction false} RunNoted(c: Config, tr: seq<State>, n: nat, r: Emergency.Role)
    requires ValidConfig(c) && PositiveStart(c) && Run(c, tr) && n < |tr|
    ensures Noted(c, tr[n], r)
  {
    if n > 0 {
      RunNoted(c, tr, n - 1, r);
      NextNoted(c, tr, n, r);
    } else {
      InitNoted(c, r);
    }
  }

  lemma DangersApart(c: Config, tr: seq<State>, n: nat, r: Emergency.Role, i: nat, j: nat)
    requires ValidConfig(c) && PositiveStart(c) && Run(c, tr) && n < |tr|
    requires i < j < |Emergency.Dangers(tr[n].e, r)|
    ensures Emergency.Dangers(tr[n].e, r)[j] - Emergency.Dangers(tr[n].e, r)[i] >= DurationMs(c)
  {
    RunUpTo(c, tr, n);
    var part := ProtocolOf(c, tr[..n + 1]);
    EmergencyTheorems.EmergencyLength(Protocol(c), part, |part| - 1, r);
  }

  /** Between two dangers that one worker detects, the running time, with the staleness of the time
      published at the first, takes more than the danger duration less one millisecond. */
  lemma DangersRunning(c: Config, tr: seq<State>, n: nat, r: Emergency.Role, i: nat, j: nat)
    requires ValidConfig(c) && PositiveStart(c) && Run(c, tr) && n < |tr|
    requires i < j < |Seen(tr[n], r)| && Clock.SettledBeforeStop(tr[n].es)
    ensures var s := tr[n];
            && Seen(s, r)[i] <= Seen(s, r)[j] <= |s.es|
            && ClockTheorems.LastsBut(c.day, c.realStart, s.es[..Seen(s, r)[j]], Seen(s, r)[i], DurationMs(c))
  {
    var s := tr[n];
    RunNoted(c, tr, n, r);
    RunOnTime(c, tr, n);
    DangersApart(c, tr, n, r, i, j);
    var a, b := Seen(s, r)[i], Seen(s, r)[j];
    assert s.es[..b][..a] == s.es[..a];
    ClockTheorems.Prefixes(c.realStart, s.es, b);
    ClockTheorems.SettledPrefix(s.es, b);
    ClockTheorems.RunningGap(c.day, c.realStart, s.es[..b], a, DurationMs(c));
  }
}
