/**
 The statistics tables: sales by the cashier, entries and rides by the tourists, each one
 critical section under SEM_STATS, and what the final report reads from them.
 */
module Statistics {
  import opened Constants

  datatype TouristType = Walker | Cyclist | Family

  /** A tourist process as the tables see it; `id` is its position plus one. */
  datatype Visitor = Visitor(ticket: int, kids: nat, vip: bool, ttype: TouristType)

  datatype Entry = Entry(active: bool, id: int, ticket: int, entryTime: int, rides: nat, vip: bool,
                         ttype: TouristType, kids: nat)

  datatype Tables = Tables(
    totalTourists: int,
    totalRides: int,
    ridesByTicket: seq<int>,
    touristsByTicket: seq<int>,
    entries: seq<Entry>,
    entryCount: nat)

  const BLANK := Entry(false, 0, 0, 0, 0, false, Walker, 0)

  predicate Shaped(t: Tables) {
    |t.ridesByTicket| == TICKET_COUNT && |t.touristsByTicket| == TICKET_COUNT
  }

  function Zeroes(): seq<int> {
    [0, 0, 0, 0, 0]
  }

  function Empty(maxTracked: nat): Tables {
    Tables(0, 0, Zeroes(), Zeroes(), seq(maxTracked, _ => BLANK), 0)
  }

  function Heads(v: Visitor): nat {
    1 + v.kids
  }

  /** The cashier sells tickets for a whole party. */
  function Sell(t: Tables, v: Visitor): Tables
    requires 0 <= v.ticket < |t.touristsByTicket|
  {
    t.(totalTourists := t.totalTourists + Heads(v),
       touristsByTicket := t.touristsByTicket[v.ticket := t.touristsByTicket[v.ticket] + Heads(v)])
  }

  /** tourist_record_entry, for tourist number `i + 1`. */
  function Record(t: Tables, i: int, v: Visitor, now: int): Tables {
    if 0 <= i < |t.entries| then
      t.(entries := t.entries[i := Entry(true, i + 1, v.ticket, now, 0, v.vip, v.ttype, v.kids)],
         entryCount := if i >= t.entryCount then i + 1 else t.entryCount)
    else t
  }

  /** tourist_update_stats: the parent's ride and those of its kids. */
  function Ride(t: Tables, i: int, v: Visitor): Tables {
    t.(totalRides := t.totalRides + Heads(v),
       ridesByTicket := if 0 <= v.ticket < |t.ridesByTicket|
                        then t.ridesByTicket[v.ticket := t.ridesByTicket[v.ticket] + Heads(v)]
                        else t.ridesByTicket,
       entries := if 0 <= i < |t.entries| then t.entries[i := t.entries[i].(rides := t.entries[i].rides + 1)]
                  else t.entries)
  }

  // ----- the whole day

  /** How far a tourist has come. */
  datatype Progress = Arriving | Sold | Riding(rides: nat, since: int)

  datatype Visit = Visit(visitor: Visitor, progress: Progress)

  datatype State = State(tables: Tables, visits: seq<Visit>)

  datatype Step = SellTo(i: nat) | RecordEntry(i: nat, now: int) | CompleteRide(i: nat)

  /** Ticket types are the five of the generator. */
  ghost predicate ValidVisitors(vs: seq<Visitor>) {
    forall i | 0 <= i < |vs| :: 0 <= vs[i].ticket < TICKET_COUNT
  }

  function Init(vs: seq<Visitor>, maxTracked: nat): State {
    State(Empty(maxTracked), seq(|vs|, i requires 0 <= i < |vs| => Visit(vs[i], Arriving)))
  }

  predicate Enabled(s: State, step: Step) {
    step.i < |s.visits| &&
    var p := s.visits[step.i].progress;
    match step
    case SellTo(i) => p.Arriving? && 0 <= s.visits[i].visitor.ticket < |s.tables.touristsByTicket|
    case RecordEntry(_, _) => p.Sold?
    case CompleteRide(_) => p.Riding?
  }

  function Apply(s: State, step: Step): State
    requires Enabled(s, step)
  {
    var v, p := s.visits[step.i].visitor, s.visits[step.i].progress;
    match step
    case SellTo(i) => State(Sell(s.tables, v), s.visits[i := Visit(v, Sold)])
    case RecordEntry(i, now) => State(Record(s.tables, i, v, now), s.visits[i := Visit(v, Riding(0, now))])
    case CompleteRide(i) => State(Ride(s.tables, i, v), s.visits[i := Visit(v, Riding(p.rides + 1, p.since))])
  }

  ghost predicate Run(vs: seq<Visitor>, maxTracked: nat, tr: seq<State>) {
    && |tr| > 0 && tr[0] == Init(vs, maxTracked)
    && forall n | 0 <= n < |tr| - 1 :: exists step :: Enabled(tr[n], step) && tr[n + 1] == Apply(tr[n], step)
  }

  // ----- what the report shows

  /** The per-tourist loop visits the first `entryCount` entries that exist and are active. */
  function Reported(t: Tables): seq<Entry> {
    t.entries[..if t.entryCount < |t.entries| then t.entryCount else |t.entries|]
  }

  function EntryRides(es: seq<Entry>): int {
    if es == [] then 0
    else EntryRides(es[..|es| - 1]) + (var e := es[|es| - 1]; if e.active then e.rides * (1 + e.kids) else 0)
  }

  function EntryHeads(es: seq<Entry>): int {
    if es == [] then 0
    else EntryHeads(es[..|es| - 1]) + (var e := es[|es| - 1]; if e.active then 1 + e.kids else 0)
  }

  function Sum(ns: seq<int>): int {
    if ns == [] then 0 else Sum(ns[..|ns| - 1]) + ns[|ns| - 1]
  }

  // ----- the tables in shared memory

  class SharedStats {
    var totalTourists: int
    var totalRides: int
    var entryCount: nat
    const ridesByTicket: array<int>
    const touristsByTicket: array<int>
    const entries: array<Entry>

    ghost predicate Valid()
      reads this
    {
      && ridesByTicket.Length == TICKET_COUNT && touristsByTicket.Length == TICKET_COUNT
      && ridesByTicket != touristsByTicket
    }

    ghost function View(): Tables
      reads this, ridesByTicket, touristsByTicket, entries
    {
      Tables(totalTourists, totalRides, ridesByTicket[..], touristsByTicket[..], entries[..], entryCount)
    }

    constructor (maxTracked: nat)
      ensures Valid() && View() == Empty(maxTracked)
      ensures fresh(ridesByTicket) && fresh(touristsByTicket) && fresh(entries)
    {
      totalTourists, totalRides, entryCount := 0, 0, 0;
      ridesByTicket := new int[TICKET_COUNT](_ => 0);
      touristsByTicket := new int[TICKET_COUNT](_ => 0);
      entries := new Entry[maxTracked](_ => BLANK);
    }

    method CountSale(v: Visitor)
      requires Valid() && 0 <= v.ticket < TICKET_COUNT
      modifies this, touristsByTicket
      ensures Valid() && View() == Sell(old(View()), v)
    {
      totalTourists := totalTourists + (1 + v.kids);
      touristsByTicket[v.ticket] := touristsByTicket[v.ticket] + (1 + v.kids);
    }

    method RecordEntry(id: int, v: Visitor, now: int)
      requires Valid()
      modifies this, entries
      ensures Valid() && View() == Record(old(View()), id - 1, v, now)
    {
      var idx := id - 1;
      if 0 <= idx < entries.Length {
        entries[idx] := Entry(true, id, v.ticket, now, 0, v.vip, v.ttype, v.kids);
        if idx >= entryCount {
          entryCount := idx + 1;
        }
      }
    }

    method UpdateStats(id: int, v: Visitor)
      requires Valid()
      modifies this, ridesByTicket, entries
      ensures Valid() && View() == Ride(old(View()), id - 1, v)
    {
      totalRides := totalRides + 1;
      if 0 <= v.ticket < TICKET_COUNT {
        ridesByTicket[v.ticket] := ridesByTicket[v.ticket] + 1;
      }
      var idx := id - 1;
      if 0 <= idx < entries.Length {
        entries[idx] := entries[idx].(rides := entries[idx].rides + 1);
      }
      ghost var updated := View();
      for i := 0 to v.kids
        invariant Valid()
        invariant View() == updated.(
                    totalRides := updated.totalRides + i,
                    ridesByTicket := if 0 <= v.ticket < TICKET_COUNT
                                     then updated.ridesByTicket[v.ticket := updated.ridesByTicket[v.ticket] + i]
                                     else updated.ridesByTicket)
      {
        totalRides := totalRides + 1;
        if 0 <= v.ticket < TICKET_COUNT {
          ridesByTicket[v.ticket] := ridesByTicket[v.ticket] + 1;
        }
      }
    }
  }
}
