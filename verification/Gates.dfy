/**
 Conservation of the counting semaphores: what every tourist holds, by the place it stands at,
 and that semaphore values and holdings always add up to the configured totals.
 */
module Gates {
  import opened Pipeline

  /** Something a tourist can hold: permits of a gate, or a share of lower_station_count. */
  datatype Claim = Holds(gate: Gate) | InCount

  function Weight(c: Claim, t: Tourist): int {
    match c
    case Holds(Entry) =>
      if !t.party.vip && t.at in {StationDoor, CountIn, EntryOut} then 1 else 0
    case Holds(Station) =>
      if t.at in {CountIn, EntryOut, Choose, FrightCount, FrightOut, PlatformGate, CountOut, StationOut}
      then t.party.stationSlots else 0
    case Holds(Platform) =>
      if t.at in {CountOut, StationOut, StopCheck, StopRegister, StopWait, Request, Await, PlatformOut} then 1 else 0
    case Holds(Exit) =>
      if t.at in {Announce, ExitOut} then 1 else 0
    case InCount =>
      if t.at in {EntryOut, Choose, FrightCount, PlatformGate, CountOut} then t.party.stationSlots else 0
  }

  function Held(c: Claim, ts: seq<Tourist>): int {
    if ts == [] then 0 else Weight(c, ts[0]) + Held(c, ts[1..])
  }

  function Total(c: Config, g: Gate): int {
    match g
    case Entry => 4
    case Station => c.capacity
    case Platform => 3
    case Exit => 2
  }

  ghost predicate SameParties(c: Config, s: State) {
    |s.ts| == |c.parties| && forall i | 0 <= i < |s.ts| :: s.ts[i].party == c.parties[i]
  }

  /** Every gate semaphore plus what tourists hold of it is its initial value, and
      lower_station_count is exactly the slots of the tourists counted in. */
  ghost predicate Balanced(c: Config, s: State) {
    && (forall g: Gate :: 0 <= Get(s.free, g) && Get(s.free, g) + Held(Holds(g), s.ts) == Total(c, g))
    && s.count == Held(InCount, s.ts)
  }

  // ----- sums over tourists

  lemma {:induction false} HeldUpdate(c: Claim, ts: seq<Tourist>, i: nat, t: Tourist)
    requires i < |ts|
    ensures Held(c, ts[i := t]) == Held(c, ts) - Weight(c, ts[i]) + Weight(c, t)
  {
    if i == 0 {
      assert ts[i := t][1..] == ts[1..];
    } else {
      assert ts[i := t][1..] == ts[1..][i - 1 := t];
      HeldUpdate(c, ts[1..], i - 1, t);
    }
  }

  ghost predicate Positive(ts: seq<Tourist>) {
    forall i | 0 <= i < |ts| :: 1 <= ts[i].party.stationSlots
  }

  lemma {:induction false} HeldBounds(c: Claim, ts: seq<Tourist>, i: nat)
    requires Positive(ts) && i < |ts|
    ensures 0 <= Weight(c, ts[i]) <= Held(c, ts)
  {
    if i > 0 {
      HeldBounds(c, ts[1..], i - 1);
    } else if |ts| > 1 {
      HeldBounds(c, ts[1..], 0);
    }
  }

  /** Holdings that add up to something belong to somebody. */
  lemma {:induction false} HeldBySomeone(c: Claim, ts: seq<Tourist>) returns (i: nat)
    requires Held(c, ts) > 0
    ensures i < |ts| && Weight(c, ts[i]) > 0
  {
    if Weight(c, ts[0]) > 0 {
      i := 0;
    } else {
      i := HeldBySomeone(c, ts[1..]);
      i := i + 1;
    }
  }

  lemma {:induction false} HeldFrom(c: Claim, ts: seq<Tourist>, n: nat, who: set<nat>)
    requires Positive(ts) && n <= |ts|
    requires forall i | i in who :: n <= i < |ts| && Weight(c, ts[i]) >= 1
    ensures |who| <= Held(c, ts[n..])
    decreases |ts| - n
  {
    if n == |ts| {
      assert who == {};
    } else {
      HeldFrom(c, ts, n + 1, who - {n});
      assert ts[n..][1..] == ts[n + 1..];
      HeldBounds(c, ts, n);
    }
  }

  /** Distinct tourists holding at least one unit each hold that many together. */
  lemma HeldByEach(c: Claim, ts: seq<Tourist>, who: set<nat>)
    requires Positive(ts)
    requires forall i | i in who :: i < |ts| && Weight(c, ts[i]) >= 1
    ensures |who| <= Held(c, ts)
  {
    HeldFrom(c, ts, 0, who);
    assert ts[0..] == ts;
  }

  // ----- preservation

  /** What an operation does to a claim, as its Wait, Post or Count says. */
  function ChangeBy(c: Claim, op: Operation): int {
    match op
    case Skip => 0
    case Wait(g, n) => if c == Holds(g) then n else 0
    case Post(g, n) => if c == Holds(g) then -n else 0
    case Count(n) => if c == InCount then n else 0
  }

  function Change(c: Claim, t: Tourist): int {
    ChangeBy(c, OperationAt(t))
  }

  lemma MoveChangesWeight(c: Claim, t: Tourist, to: Place)
    requires Follows(t.at, to)
    ensures Weight(c, t.(at := to)) == Weight(c, t) + Change(c, t)
  {
  }

  lemma MoveChangesHeld(k: Claim, s: State, i: nat, to: Place)
    requires i < |s.ts| && Follows(s.ts[i].at, to)
    ensures Held(k, ApplyMove(s, i, to).ts) == Held(k, s.ts) + Change(k, s.ts[i])
  {
    var t' := s.ts[i].(at := to);
    assert ApplyMove(s, i, to).ts == s.ts[i := t'];
    HeldUpdate(k, s.ts, i, t');
    MoveChangesWeight(k, s.ts[i], to);
  }

  lemma AddChanges(f: Free, h: Gate, n: int, g: Gate)
    ensures Get(Add(f, h, n), g) == Get(f, g) + (if g == h then n else 0)
  {
  }

  /** What an operation makes of the free permits. */
  function FreeAfter(f: Free, op: Operation): Free {
    match op
    case Wait(g, n) => Add(f, g, -n)
    case Post(g, n) => Add(f, g, n)
    case _ => f
  }

  lemma OperationChangesFree(f: Free, op: Operation, g: Gate)
    ensures Get(FreeAfter(f, op), g) == Get(f, g) - ChangeBy(Holds(g), op)
  {
    match op
    case Wait(h, n) => AddChanges(f, h, -n, g);
    case Post(h, n) => AddChanges(f, h, n, g);
    case _ =>
  }

  lemma MoveOperates(s: State, i: nat, to: Place, op: Operation)
    requires i < |s.ts| && op == OperationAt(s.ts[i])
    ensures ApplyMove(s, i, to).free == FreeAfter(s.free, op)
    ensures ApplyMove(s, i, to).count == s.count + ChangeBy(InCount, op)
  {
  }

  lemma MoveChangesGates(s: State, i: nat, to: Place, g: Gate)
    requires i < |s.ts|
    ensures Get(ApplyMove(s, i, to).free, g) == Get(s.free, g) - Change(Holds(g), s.ts[i])
    ensures ApplyMove(s, i, to).count == s.count + Change(InCount, s.ts[i])
  {
    var op := OperationAt(s.ts[i]);
    MoveOperates(s, i, to, op);
    OperationChangesFree(s.free, op, g);
  }

  lemma MoveBalances(c: Config, s: State, i: nat, to: Place)
    requires Balanced(c, s) && Enabled(c, s, Move(i, to)) && Positive(s.ts)
    ensures Balanced(c, ApplyMove(s, i, to))
  {
    var s' := ApplyMove(s, i, to);
    forall g: Gate
      ensures 0 <= Get(s'.free, g) && Get(s'.free, g) + Held(Holds(g), s'.ts) == Total(c, g)
    {
      MoveChangesHeld(Holds(g), s, i, to);
      MoveChangesGates(s, i, to, g);
    }
    MoveChangesHeld(InCount, s, i, to);
    MoveChangesGates(s, i, to, Entry);
  }

  /** A tourist that moves without a semaphore operation keeps its holdings. */
  lemma StandsStill(c: Config, s: State, s': State, i: nat)
    requires Balanced(c, s) && i < |s.ts| == |s'.ts|
    requires s'.free == s.free && s'.count == s.count && s'.ts == s.ts[i := s'.ts[i]]
    requires forall k: Claim :: Weight(k, s'.ts[i]) == Weight(k, s.ts[i])
    ensures Balanced(c, s')
  {
    forall k: Claim ensures Held(k, s'.ts) == Held(k, s.ts) {
      HeldUpdate(k, s.ts, i, s'.ts[i]);
    }
  }

  lemma StandingBalances(c: Config, s: State, step: Step)
    requires Balanced(c, s) && Enabled(c, s, step) && (step.ReadStop? || step.PassClear?)
    ensures Balanced(c, Apply(c, s, step))
  {
    StandsStill(c, s, Apply(c, s, step), step.i);
  }

  lemma MessagingBalances(c: Config, s: State, step: Step)
    requires Balanced(c, s) && Enabled(c, s, step)
    requires step.SendRequest? || step.TakeConfirmation? || step.SendArrival?
    ensures Balanced(c, Apply(c, s, step))
  {
    StandsStill(c, s, Apply(c, s, step), step.i);
  }

  lemma StepBalances(c: Config, s: State, step: Step)
    requires Balanced(c, s) && Enabled(c, s, step) && Positive(s.ts)
    ensures Balanced(c, Apply(c, s, step))
  {
    match step
    case Move(i, to) => MoveBalances(c, s, i, to);
    case ReadStop(_, _) => StandingBalances(c, s, step);
    case PassClear(_) => StandingBalances(c, s, step);
    case SendRequest(_) => MessagingBalances(c, s, step);
    case TakeConfirmation(_, _) => MessagingBalances(c, s, step);
    case SendArrival(_) => MessagingBalances(c, s, step);
    case _ =>
  }

  lemma PartiesStay(c: Config, s: State, step: Step)
    requires SameParties(c, s) && Enabled(c, s, step)
    ensures SameParties(c, Apply(c, s, step))
  {
  }

  lemma {:induction false} NothingHeld(k: Claim, ts: seq<Tourist>)
    requires forall i | 0 <= i < |ts| :: ts[i].at == Start
    ensures Held(k, ts) == 0
  {
    if ts != [] {
      NothingHeld(k, ts[1..]);
    }
  }

  lemma InitBalanced(c: Config)
    requires ValidConfig(c)
    ensures SameParties(c, Init(c)) && Balanced(c, Init(c))
  {
    forall k: Claim ensures Held(k, Init(c).ts) == 0 {
      NothingHeld(k, Init(c).ts);
    }
  }

  // ----- what the balance means

  /** The lower station never holds more than its capacity, counted or not yet counted. */
  lemma StationWithinCapacity(c: Config, s: State)
    requires Balanced(c, s) && Positive(s.ts)
    ensures 0 <= s.count <= Held(Holds(Station), s.ts) <= c.capacity
  {
    CountedAreInside(s.ts);
  }

  lemma {:induction false} CountedAreInside(ts: seq<Tourist>)
    requires Positive(ts)
    ensures 0 <= Held(InCount, ts) <= Held(Holds(Station), ts)
  {
    if ts != [] {
      CountedAreInside(ts[1..]);
    }
  }
}
