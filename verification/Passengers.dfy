/**
 From confirmation to the upper platform: every request is in exactly one place, every
 passenger of a chair is told the same thing, and every chair is counted in full once.
 */
module Passengers {
  import opened Constants
  import opened ChairTracking
  import opened Pipeline

  /** What a passenger of the k-th chair is told. */
  ghost predicate ToldOf(chairs: seq<Chair>, k: nat, chairId: int, heads: int) {
    k < |chairs| && chairId == ChairId(k) && heads == chairs[k].size
  }

  /** A request has a chair from its confirmation on, the one that took it. */
  ghost predicate Phased(s: State) {
    && |s.phase| == |s.sent|
    && forall q | 0 <= q < |s.sent| ::
         && (q < |s.confirmed| <==> !s.phase[q].Requested?)
         && (q < |s.confirmed| ==>
               && s.phase[q].chair < |s.chairs|
               && s.chairs[s.phase[q].chair].first <= q
               && q < s.chairs[s.phase[q].chair].first + s.chairs[s.phase[q].chair].size)
  }

  // ----- tourists

  ghost predicate PlaceMatchesTrip(t: Tourist) {
    && (t.at == Await <==> t.trip.Waiting?)
    && (t.at in {PlatformOut, Ride, ExitGate, Announce} <==> t.trip.Aboard?)
  }

  ghost predicate TripOk(s: State, i: nat)
    requires i < |s.ts| && |s.phase| == |s.sent|
  {
    match s.ts[i].trip
    case NoTrip => true
    case Waiting(q) =>
      q < |s.sent| && s.sent[q].tourist == i && (s.phase[q].Requested? || s.phase[q].Confirmed?)
    case Aboard(q, id, heads, departure) =>
      && q < |s.sent| && s.sent[q].tourist == i && s.phase[q].Riding?
      && ToldOf(s.chairs, s.phase[q].chair, id, heads) && departure == s.chairs[s.phase[q].chair].departure
  }

  ghost predicate Travellers(s: State)
    requires |s.phase| == |s.sent|
  {
    && (forall i | 0 <= i < |s.ts| :: PlaceMatchesTrip(s.ts[i]) && TripOk(s, i))
    && forall q | 0 <= q < |s.sent| ::
         && s.sent[q].tourist < |s.ts|
         && s.sent[q].slots == s.ts[s.sent[q].tourist].party.chairSlots
         && (s.phase[q].Requested? || s.phase[q].Confirmed? ==> s.ts[s.sent[q].tourist].trip == Waiting(q))
         && (s.phase[q].Riding? ==> s.ts[s.sent[q].tourist].trip.Aboard?
                                    && s.ts[s.sent[q].tourist].trip.serial == q)
  }

  // ----- messages on their way

  ghost predicate ConfirmationOk(s: State, b: BoardingMsg)
    requires |s.phase| == |s.sent|
  {
    && b.serial < |s.sent| && b.tourist == s.sent[b.serial].tourist && s.phase[b.serial].Confirmed?
    && ToldOf(s.chairs, s.phase[b.serial].chair, b.chairId, b.heads)
    && b.departure == s.chairs[s.phase[b.serial].chair].departure
  }

  ghost predicate InBoarding(s: State, q: nat) {
    exists n :: 0 <= n < |s.boarding| && s.boarding[n].serial == q
  }

  ghost predicate Confirmations(s: State)
    requires |s.phase| == |s.sent|
  {
    && (forall n | 0 <= n < |s.boarding| :: ConfirmationOk(s, s.boarding[n]))
    && (forall m, n | 0 <= m < n < |s.boarding| :: s.boarding[m].serial != s.boarding[n].serial)
    && (forall q | 0 <= q < |s.sent| && s.phase[q].Confirmed? :: InBoarding(s, q))
  }

  /** Arrivals not yet counted: the one in the upper worker's hand, then those queued. */
  function Uncounted(s: State): seq<ArrivalMsg> {
    (if s.up.hand.Some? then [s.up.hand.value] else []) + s.arrivals
  }

  ghost predicate AnnouncementOk(s: State, a: ArrivalMsg)
    requires |s.phase| == |s.sent|
  {
    && a.serial < |s.sent| && a.tourist == s.sent[a.serial].tourist && s.phase[a.serial].Announced?
    && ToldOf(s.chairs, s.phase[a.serial].chair, a.chairId, a.heads)
  }

  ghost predicate InUncounted(s: State, q: nat) {
    exists n :: 0 <= n < |Uncounted(s)| && Uncounted(s)[n].serial == q
  }

  ghost predicate Announcements(s: State)
    requires |s.phase| == |s.sent|
  {
    && (forall n | 0 <= n < |Uncounted(s)| :: AnnouncementOk(s, Uncounted(s)[n]))
    && (forall m, n | 0 <= m < n < |Uncounted(s)| :: Uncounted(s)[m].serial != Uncounted(s)[n].serial)
    && (forall q | 0 <= q < |s.sent| && s.phase[q].Announced? :: InUncounted(s, q))
  }

  // ----- counting chairs

  function Tally(ps: seq<Phase>): nat {
    if ps == [] then 0 else (if ps[0].Counted? then 1 else 0) + Tally(ps[1..])
  }

  ghost predicate Tallied(s: State)
    requires |s.phase| == |s.sent|
  {
    forall k | 0 <= k < |s.chairs| ::
      && s.chairs[k].first + s.chairs[k].size <= |s.phase|
      && s.chairs[k].counted == Tally(s.phase[s.chairs[k].first..s.chairs[k].first + s.chairs[k].size])
  }

  ghost predicate Complete(s: State, k: nat) {
    k < |s.chairs| && s.chairs[k].counted == s.chairs[k].size
  }

  /** Each permit comes back once, for a chair whose passengers have all been counted. */
  ghost predicate Returns(s: State) {
    && (forall m, n | 0 <= m < n < |s.returned| :: s.returned[m] != s.returned[n])
    && (forall k: nat :: k in s.returned <==> Complete(s, k))
    && 0 <= s.permits == MAX_CHAIRS_IN_TRANSIT - |s.chairs| + |s.returned|
  }

  ghost predicate PartlyCounted(s: State, k: nat) {
    k < |s.chairs| && 1 <= s.chairs[k].counted < s.chairs[k].size
  }

  ghost predicate EntryOf(s: State, m: map<int, Progress>, id: int, k: nat)
    requires id in m
  {
    PartlyCounted(s, k) && id == ChairId(k) && m[id] == Progress(s.chairs[k].size, s.chairs[k].counted)
  }

  /** The tracking table holds the partly counted chairs and nothing else. */
  ghost predicate MapTracks(s: State, m: map<int, Progress>) {
    && (forall id | id in m :: exists k: nat :: EntryOf(s, m, id, k))
    && (forall k: nat | PartlyCounted(s, k) :: ChairId(k) in m && EntryOf(s, m, ChairId(k), k))
  }

  ghost predicate TableTracks(s: State) {
    Valid(s.up.trackers) && MapTracks(s, Contents(s.up.trackers))
  }

  ghost predicate PassengersOk(s: State) {
    && Phased(s) && Travellers(s) && Confirmations(s) && Announcements(s)
    && Tallied(s) && Returns(s) && TableTracks(s)
  }
}
