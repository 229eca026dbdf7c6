/** Who may pass a gate, told from where the other tourists stand. */
module GateTheorems {
  import opened Pipeline
  import opened Gates
  import opened PipelineTheorems

  /** Tourists that came through an entry gate and have not given it back: VIPs never do. */
  ghost function AtEntry(s: State): set<nat> {
    set i | 0 <= i < |s.ts| && !s.ts[i].party.vip && s.ts[i].at in {StationDoor, CountIn, EntryOut}
  }

  /** Tourists between a platform gate and a chair. */
  ghost function OnPlatform(s: State): set<nat> {
    set i | 0 <= i < |s.ts|
            && s.ts[i].at in {CountOut, StationOut, StopCheck, StopRegister, StopWait, Request, Await, PlatformOut}
  }

  /** Tourists in an exit gate at the top. */
  ghost function AtExit(s: State): set<nat> {
    set i | 0 <= i < |s.ts| && s.ts[i].at in {Announce, ExitOut}
  }

  /** Slots taken by the tourists inside the lower station. */
  function Inside(ts: seq<Tourist>): int {
    if ts == [] then 0
    else Inside(ts[1..]) +
         (if ts[0].at in {CountIn, EntryOut, Choose, FrightCount, FrightOut, PlatformGate, CountOut, StationOut}
          then ts[0].party.stationSlots else 0)
  }

  // ----- holdings are heads

  lemma {:induction false} OnesAddUp(k: Claim, ts: seq<Tourist>, n: nat, who: set<nat>)
    requires n <= |ts| && forall i | i in who :: n <= i < |ts|
    requires forall i | n <= i < |ts| :: Weight(k, ts[i]) == if i in who then 1 else 0
    ensures Held(k, ts[n..]) == |who|
    decreases |ts| - n
  {
    if n == |ts| {
      assert who == {};
    } else {
      assert ts[n..][1..] == ts[n + 1..];
      OnesAddUp(k, ts, n + 1, who - {n});
    }
  }

  lemma HeadsAreHeld(k: Claim, ts: seq<Tourist>, who: set<nat>)
    requires forall i | i in who :: i < |ts|
    requires forall i | 0 <= i < |ts| :: Weight(k, ts[i]) == if i in who then 1 else 0
    ensures Held(k, ts) == |who|
  {
    assert ts[0..] == ts;
    OnesAddUp(k, ts, 0, who);
  }

  lemma {:induction false} InsideIsHeld(ts: seq<Tourist>)
    ensures Inside(ts) == Held(Holds(Station), ts)
  {
    if ts != [] { InsideIsHeld(ts[1..]); }
  }

  /** What is free at each gate. */
  lemma FreeIs(c: Config, s: State)
    requires Balanced(c, s)
    ensures s.free.entry == 4 - |AtEntry(s)| && |AtEntry(s)| <= 4
    ensures s.free.station == c.capacity - Inside(s.ts) && Inside(s.ts) <= c.capacity
    ensures s.free.platform == 3 - |OnPlatform(s)| && |OnPlatform(s)| <= 3
    ensures s.free.exit == 2 - |AtExit(s)| && |AtExit(s)| <= 2
  {
    HeadsAreHeld(Holds(Entry), s.ts, AtEntry(s));
    HeadsAreHeld(Holds(Platform), s.ts, OnPlatform(s));
    HeadsAreHeld(Holds(Exit), s.ts, AtExit(s));
    InsideIsHeld(s.ts);
    assert Get(s.free, Entry) + Held(Holds(Entry), s.ts) == 4;
    assert Get(s.free, Station) + Held(Holds(Station), s.ts) == c.capacity;
    assert Get(s.free, Platform) + Held(Holds(Platform), s.ts) == 3;
    assert Get(s.free, Exit) + Held(Holds(Exit), s.ts) == 2;
  }

  lemma RunIsBalanced(c: Config, tr: seq<State>, n: nat)
    requires ValidConfig(c) && Run(c, tr) && n < |tr|
    ensures Balanced(c, tr[n])
  {
    RunInv(c, tr, n);
  }

  // ----- main results

  /** At most 4 tourists, none of them a VIP, are in the entry gates. A tourist at the gates gets in
      at once if and only if it is a VIP or fewer than 4 are. */
  lemma EntryGates(c: Config, tr: seq<State>, n: nat, i: nat)
    requires ValidConfig(c) && Run(c, tr) && n < |tr|
    ensures |AtEntry(tr[n])| <= 4
    ensures i < |tr[n].ts| && tr[n].ts[i].at == EntryGate ==>
              (Enabled(c, tr[n], Move(i, StationDoor)) <==> tr[n].ts[i].party.vip || |AtEntry(tr[n])| < 4)
  {
    RunIsBalanced(c, tr, n);
    FreeIs(c, tr[n]);
  }

  /** A party gets into the station if and only if its slots fit beside those of the parties inside. */
  lemma StationDoors(c: Config, tr: seq<State>, n: nat, i: nat)
    requires ValidConfig(c) && Run(c, tr) && n < |tr|
    ensures Inside(tr[n].ts) <= c.capacity
    ensures i < |tr[n].ts| && tr[n].ts[i].at == StationDoor ==>
              (Enabled(c, tr[n], Move(i, CountIn))
               <==> Inside(tr[n].ts) + tr[n].ts[i].party.stationSlots <= c.capacity)
  {
    RunIsBalanced(c, tr, n);
    FreeIs(c, tr[n]);
  }

  /** A party in the station that is too frightened to ride can leave at once, whatever the others do:
      nothing holds it up, and it gives back exactly the slots it took. */
  lemma FrightenedLeave(c: Config, s: State, i: nat)
    requires i < |s.ts| && s.ts[i].at == Choose
    ensures Enabled(c, s, Move(i, FrightCount))
    ensures var s1 := Apply(c, s, Move(i, FrightCount));
            && Enabled(c, s1, Move(i, FrightOut))
            && var s2 := Apply(c, s1, Move(i, FrightOut));
               && Enabled(c, s2, Move(i, Gone))
               && var s3 := Apply(c, s2, Move(i, Gone));
                  && s3.ts == s.ts[i := s.ts[i].(at := Gone)]
                  && s3.count == s.count - s.ts[i].party.stationSlots
                  && s3.free == s.free.(station := s.free.station + s.ts[i].party.stationSlots)
  {
    var s1 := At(s, i, FrightCount);
    var s2 := At(s1, i, FrightOut).(count := s.count - s.ts[i].party.stationSlots);
    assert Apply(c, s, Move(i, FrightCount)) == s1;
    CountsOut(c, s1, i);
    assert s2.ts == s.ts[i := s.ts[i].(at := FrightOut)];
    GivesBack(c, s2, i);
  }

  lemma CountsOut(c: Config, s: State, i: nat)
    requires i < |s.ts| && s.ts[i].at == FrightCount
    ensures Enabled(c, s, Move(i, FrightOut))
    ensures Apply(c, s, Move(i, FrightOut)) == At(s, i, FrightOut).(count := s.count - s.ts[i].party.stationSlots)
  {
  }

  lemma GivesBack(c: Config, s: State, i: nat)
    requires i < |s.ts| && s.ts[i].at == FrightOut
    ensures Enabled(c, s, Move(i, Gone))
    ensures Apply(c, s, Move(i, Gone)) ==
              At(s, i, Gone).(free := s.free.(station := s.free.station + s.ts[i].party.stationSlots))
  {
  }

  /** At most 3 tourists are between the platform gates and their chairs, and at most 2 in the exit
      gates; each gate lets one more through if and only if there are fewer. */
  lemma PlatformAndExitGates(c: Config, tr: seq<State>, n: nat, i: nat)
    requires ValidConfig(c) && Run(c, tr) && n < |tr|
    ensures |OnPlatform(tr[n])| <= 3 && |AtExit(tr[n])| <= 2
    ensures i < |tr[n].ts| && tr[n].ts[i].at == PlatformGate ==>
              (Enabled(c, tr[n], Move(i, CountOut)) <==> |OnPlatform(tr[n])| < 3)
    ensures i < |tr[n].ts| && tr[n].ts[i].at == ExitGate ==>
              (Enabled(c, tr[n], Move(i, Announce)) <==> |AtExit(tr[n])| < 2)
  {
    RunIsBalanced(c, tr, n);
    FreeIs(c, tr[n]);
  }
}
