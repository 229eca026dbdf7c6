/** In every run the tables of the final report agree with each other. */
module StatisticsTheorems {
  import opened Constants
  import opened Statistics

  // ----- what each visitor has contributed

  function RideValue(x: Visit): int {
    if x.progress.Riding? then x.progress.rides * Heads(x.visitor) else 0
  }

  function SoldValue(x: Visit): int {
    if x.progress.Arriving? then 0 else Heads(x.visitor)
  }

  function RecordedValue(x: Visit): int {
    if x.progress.Riding? then Heads(x.visitor) else 0
  }

  function WaitingValue(x: Visit): int {
    if x.progress.Sold? then Heads(x.visitor) else 0
  }

  datatype Measure = RidesDone | HeadsSold | HeadsRecorded | HeadsWaiting

  function Value(m: Measure, x: Visit): int {
    match m
    case RidesDone => RideValue(x)
    case HeadsSold => SoldValue(x)
    case HeadsRecorded => RecordedValue(x)
    case HeadsWaiting => WaitingValue(x)
  }

  /** Contributions of all visitors, or of those with one ticket type. */
  function Total(m: Measure, xs: seq<Visit>, ticket: Option<int>): int {
    if xs == [] then 0
    else Total(m, xs[..|xs| - 1], ticket)
         + (var x := xs[|xs| - 1];
            if ticket == None || ticket == Some(x.visitor.ticket) then Value(m, x) else 0)
  }

  lemma {:induction false} TotalUpdate(m: Measure, xs: seq<Visit>, i: nat, x: Visit, ticket: Option<int>)
    requires i < |xs| && x.visitor == xs[i].visitor
    ensures Total(m, xs[i := x], ticket) == Total(m, xs, ticket)
              + (if ticket == None || ticket == Some(x.visitor.ticket) then Value(m, x) - Value(m, xs[i]) else 0)
  {
    var last := |xs| - 1;
    if i == last {
      assert xs[i := x][..last] == xs[..last];
    } else {
      assert xs[i := x][..last] == xs[..last][i := x];
      TotalUpdate(m, xs[..last], i, x, ticket);
    }
  }

  /** The five ticket types together make up the total. */
  lemma {:induction false} TicketsPartition(m: Measure, xs: seq<Visit>)
    requires forall i | 0 <= i < |xs| :: 0 <= xs[i].visitor.ticket < TICKET_COUNT
    ensures Total(m, xs, None) == Total(m, xs, Some(0)) + Total(m, xs, Some(1)) + Total(m, xs, Some(2))
                                  + Total(m, xs, Some(3)) + Total(m, xs, Some(4))
  {
    if xs != [] {
      TicketsPartition(m, xs[..|xs| - 1]);
    }
  }

  lemma {:induction false} TotalSplit(m: Measure, xs: seq<Visit>, n: nat)
    requires n <= |xs|
    ensures Total(m, xs, None) == Total(m, xs[..n], None) + Total(m, xs[n..], None)
  {
    if n == |xs| {
      assert xs[..n] == xs;
    } else {
      var last := |xs| - 1;
      assert xs[..last][..n] == xs[..n] && xs[..last][n..] == xs[n..][..last - n];
      TotalSplit(m, xs[..last], n);
    }
  }

  lemma {:induction false} SoldIsRecordedOrWaiting(xs: seq<Visit>)
    ensures Total(HeadsSold, xs, None) == Total(HeadsRecorded, xs, None) + Total(HeadsWaiting, xs, None)
  {
    if xs != [] {
      SoldIsRecordedOrWaiting(xs[..|xs| - 1]);
    }
  }

  // ----- the invariant

  /** The entry of a visitor, when there is one. */
  ghost predicate EntryMatches(e: Entry, i: nat, xs: seq<Visit>) {
    && (e.active <==> i < |xs| && xs[i].progress.Riding?)
    && (e.active ==> e.kids == xs[i].visitor.kids && e.rides == xs[i].progress.rides
                     && e.id == i + 1 && e.ticket == xs[i].visitor.ticket
                     && e.vip == xs[i].visitor.vip && e.ttype == xs[i].visitor.ttype
                     && e.entryTime == xs[i].progress.since)
  }

  ghost predicate Inv(s: State) {
    var t, xs := s.tables, s.visits;
    && Shaped(t)
    && (forall i | 0 <= i < |xs| :: 0 <= xs[i].visitor.ticket < TICKET_COUNT)
    && t.totalRides == Total(RidesDone, xs, None)
    && t.totalTourists == Total(HeadsSold, xs, None)
    && (forall k | 0 <= k < TICKET_COUNT :: t.ridesByTicket[k] == Total(RidesDone, xs, Some(k)))
    && (forall k | 0 <= k < TICKET_COUNT :: t.touristsByTicket[k] == Total(HeadsSold, xs, Some(k)))
    && (forall i | 0 <= i < |t.entries| :: EntryMatches(t.entries[i], i, xs))
    && (forall i | 0 <= i < |t.entries| && t.entries[i].active :: i < t.entryCount)
  }

  lemma {:induction false} NobodyYet(m: Measure, xs: seq<Visit>, ticket: Option<int>)
    requires forall i | 0 <= i < |xs| :: xs[i].progress.Arriving?
    ensures Total(m, xs, ticket) == 0
  {
    if xs != [] {
      NobodyYet(m, xs[..|xs| - 1], ticket);
    }
  }

  lemma InitInv(vs: seq<Visitor>, maxTracked: nat)
    requires ValidVisitors(vs)
    ensures Inv(Init(vs, maxTracked))
  {
    forall m: Measure, ticket: Option<int> ensures Total(m, Init(vs, maxTracked).visits, ticket) == 0 {
      NobodyYet(m, Init(vs, maxTracked).visits, ticket);
    }
  }

  lemma StepTotals(s: State, step: Step, m: Measure, ticket: Option<int>)
    requires Enabled(s, step)
    ensures var x, x' := s.visits[step.i], Apply(s, step).visits[step.i];
            Total(m, Apply(s, step).visits, ticket) == Total(m, s.visits, ticket)
              + (if ticket == None || ticket == Some(x.visitor.ticket) then Value(m, x') - Value(m, x) else 0)
  {
    TotalUpdate(m, s.visits, step.i, Apply(s, step).visits[step.i], ticket);
  }

  lemma StepEntries(s: State, step: Step)
    requires Inv(s) && Enabled(s, step)
    ensures var s' := Apply(s, step);
            && (forall i | 0 <= i < |s'.tables.entries| :: EntryMatches(s'.tables.entries[i], i, s'.visits))
            && (forall i | 0 <= i < |s'.tables.entries| && s'.tables.entries[i].active :: i < s'.tables.entryCount)
  {
    var s' := Apply(s, step);
    forall i | 0 <= i < |s'.tables.entries| ensures EntryMatches(s'.tables.entries[i], i, s'.visits) {
      assert EntryMatches(s.tables.entries[i], i, s.visits);
    }
  }

  lemma RideAdds(rides: nat, heads: nat)
    ensures (rides + 1) * heads == rides * heads + heads
  {
  }

  lemma StepTicketRows(s: State, step: Step, k: nat)
    requires Inv(s) && Enabled(s, step) && k < TICKET_COUNT
    ensures Shaped(Apply(s, step).tables)
    ensures Apply(s, step).tables.ridesByTicket[k] == Total(RidesDone, Apply(s, step).visits, Some(k))
    ensures Apply(s, step).tables.touristsByTicket[k] == Total(HeadsSold, Apply(s, step).visits, Some(k))
  {
    StepTotals(s, step, RidesDone, Some(k));
    StepTotals(s, step, HeadsSold, Some(k));
    if step.CompleteRide? {
      RideAdds(s.visits[step.i].progress.rides, Heads(s.visits[step.i].visitor));
    }
  }

  lemma StepSums(s: State, step: Step)
    requires Inv(s) && Enabled(s, step)
    ensures Apply(s, step).tables.totalRides == Total(RidesDone, Apply(s, step).visits, None)
    ensures Apply(s, step).tables.totalTourists == Total(HeadsSold, Apply(s, step).visits, None)
  {
    StepTotals(s, step, RidesDone, None);
    StepTotals(s, step, HeadsSold, None);
    if step.CompleteRide? {
      RideAdds(s.visits[step.i].progress.rides, Heads(s.visits[step.i].visitor));
    }
  }

  lemma StepKeepsInv(s: State, step: Step)
    requires Inv(s) && Enabled(s, step)
    ensures Inv(Apply(s, step))
  {
    StepEntries(s, step);
    StepSums(s, step);
    StepTicketRows(s, step, 0);
    forall k | 0 <= k < TICKET_COUNT
      ensures Apply(s, step).tables.ridesByTicket[k] == Total(RidesDone, Apply(s, step).visits, Some(k))
      ensures Apply(s, step).tables.touristsByTicket[k] == Total(HeadsSold, Apply(s, step).visits, Some(k))
    {
      StepTicketRows(s, step, k);
    }
  }

  lemma {:induction false} RunInv(vs: seq<Visitor>, maxTracked: nat, tr: seq<State>, n: nat)
    requires ValidVisitors(vs) && Run(vs, maxTracked, tr) && n < |tr|
    ensures Inv(tr[n]) && |tr[n].visits| == |vs| && |tr[n].tables.entries| == maxTracked
  {
    if n == 0 {
      InitInv(vs, maxTracked);
    } else {
      RunInv(vs, maxTracked, tr, n - 1);
      var step :| Enabled(tr[n - 1], step) && tr[n - 1 + 1] == Apply(tr[n - 1], step);
      StepKeepsInv(tr[n - 1], step);
    }
  }

  ghost predicate SameVisitors(vs: seq<Visitor>, s: State) {
    |s.visits| == |vs| && forall i | 0 <= i < |vs| :: s.visits[i].visitor == vs[i]
  }

  lemma {:induction false} VisitorsStay(vs: seq<Visitor>, maxTracked: nat, tr: seq<State>, n: nat)
    requires Run(vs, maxTracked, tr) && n < |tr|
    ensures SameVisitors(vs, tr[n])
  {
    if n > 0 {
      VisitorsStay(vs, maxTracked, tr, n - 1);
      NextVisitors(vs, maxTracked, tr, n);
    }
  }

  lemma NextVisitors(vs: seq<Visitor>, maxTracked: nat, tr: seq<State>, n: nat)
    requires Run(vs, maxTracked, tr) && 0 < n < |tr| && SameVisitors(vs, tr[n - 1])
    ensures SameVisitors(vs, tr[n])
  {
    var step :| Enabled(tr[n - 1], step) && tr[n - 1 + 1] == Apply(tr[n - 1], step);
    StepKeepsVisitors(vs, tr[n - 1], step);
  }

  lemma StepKeepsVisitors(vs: seq<Visitor>, s: State, step: Step)
    requires SameVisitors(vs, s) && Enabled(s, step)
    ensures SameVisitors(vs, Apply(s, step))
  {
  }

  // ----- the report

  lemma {:induction false} EntriesAgree(s: State, n: nat)
    requires Inv(s) && n <= |s.tables.entries|
    ensures var es, xs := s.tables.entries[..n], s.visits[..if n < |s.visits| then n else |s.visits|];
            EntryRides(es) == Total(RidesDone, xs, None) && EntryHeads(es) == Total(HeadsRecorded, xs, None)
  {
    if n > 0 {
      EntriesAgree(s, n - 1);
      var es, xs := s.tables.entries, s.visits;
      assert es[..n][..n - 1] == es[..n - 1];
      assert EntryMatches(es[n - 1], n - 1, xs);
      if n <= |xs| {
        assert xs[..n][..n - 1] == xs[..n - 1];
      }
    }
  }

  lemma {:induction false} InactiveTail(es: seq<Entry>, n: nat)
    requires n <= |es| && forall i | n <= i < |es| :: !es[i].active
    ensures EntryRides(es) == EntryRides(es[..n]) && EntryHeads(es) == EntryHeads(es[..n])
  {
    if n == |es| {
      assert es[..n] == es;
    } else {
      assert es[..|es| - 1][..n] == es[..n];
      InactiveTail(es[..|es| - 1], n);
    }
  }

  lemma {:induction false} SumOfFive(ns: seq<int>)
    requires |ns| == TICKET_COUNT
    ensures Sum(ns) == ns[0] + ns[1] + ns[2] + ns[3] + ns[4]
  {
    assert ns[..4][..3] == ns[..3] && ns[..3][..2] == ns[..2] && ns[..2][..1] == ns[..1];
    assert Sum(ns[..1]) == ns[0];
    assert Sum(ns[..2]) == ns[0] + ns[1];
    assert Sum(ns[..3]) == ns[0] + ns[1] + ns[2];
    assert Sum(ns[..4]) == ns[0] + ns[1] + ns[2] + ns[3];
  }

  /** Contributions of the visitors beyond the last tracked entry. */
  function Untracked(m: Measure, s: State): int {
    Total(m, s.visits[if |s.tables.entries| < |s.visits| then |s.tables.entries| else |s.visits|..], None)
  }

  /** In every run total_rides is the sum of rides_by_ticket, and the sum over the reported
      entries of rides times heads plus the rides of visitors without an entry; total_tourists
      is the sum of tourists_by_ticket, and exceeds the heads reported by the parties sold to
      but not yet recorded, plus the visitors without an entry. */
  lemma ReportAgreement(vs: seq<Visitor>, maxTracked: nat, tr: seq<State>, n: nat)
    requires ValidVisitors(vs) && Run(vs, maxTracked, tr) && n < |tr|
    ensures var s, t := tr[n], tr[n].tables;
            && t.totalRides == Sum(t.ridesByTicket) == EntryRides(Reported(t)) + Untracked(RidesDone, s)
            && t.totalTourists == Sum(t.touristsByTicket)
                 == EntryHeads(Reported(t)) + Untracked(HeadsRecorded, s) + Total(HeadsWaiting, s.visits, None)
  {
    RunInv(vs, maxTracked, tr, n);
    var s, t := tr[n], tr[n].tables;
    TicketsPartition(RidesDone, s.visits);
    TicketsPartition(HeadsSold, s.visits);
    SumOfFive(t.ridesByTicket);
    SumOfFive(t.touristsByTicket);
    EntriesAgree(s, |t.entries|);
    var tracked := if |t.entries| < |s.visits| then |t.entries| else |s.visits|;
    TotalSplit(RidesDone, s.visits, tracked);
    TotalSplit(HeadsRecorded, s.visits, tracked);
    SoldIsRecordedOrWaiting(s.visits);
    assert t.entries[..|t.entries|] == t.entries;
    InactiveTail(t.entries, |Reported(t)|);
  }

  /** The row of each ticket has the heads of the visitors sold that ticket, and their rides. */
  lemma TicketRows(vs: seq<Visitor>, maxTracked: nat, tr: seq<State>, n: nat, k: nat)
    requires ValidVisitors(vs) && Run(vs, maxTracked, tr) && n < |tr| && k < 5
    ensures var s, t := tr[n], tr[n].tables;
            && |t.ridesByTicket| == 5 && t.ridesByTicket[k] == Total(RidesDone, s.visits, Some(k))
            && |t.touristsByTicket| == 5 && t.touristsByTicket[k] == Total(HeadsSold, s.visits, Some(k))
  {
    RunInv(vs, maxTracked, tr, n);
  }

  /** The report lists a visitor if and only if it has recorded its entry and the table has room for
      it, and then shows what it is, when it came and how often it has ridden. */
  lemma ReportDescribesVisitors(vs: seq<Visitor>, maxTracked: nat, tr: seq<State>, n: nat, i: nat)
    requires ValidVisitors(vs) && Run(vs, maxTracked, tr) && n < |tr|
    ensures var reported := Reported(tr[n].tables);
            && (i < |reported| && reported[i].active
                <==> i < maxTracked && i < |tr[n].visits| && tr[n].visits[i].progress.Riding?)
            && (i < |reported| && reported[i].active ==>
                  && i < |vs|
                  && var p := tr[n].visits[i].progress;
                     reported[i] == Entry(true, i + 1, vs[i].ticket, p.since, p.rides, vs[i].vip, vs[i].ttype,
                                          vs[i].kids))
  {
    RunInv(vs, maxTracked, tr, n);
    VisitorsStay(vs, maxTracked, tr, n);
    if i < maxTracked {
      assert EntryMatches(tr[n].tables.entries[i], i, tr[n].visits);
    }
  }

  /** With an entry for every tourist, as the table is sized, nothing goes unreported. */
  lemma FullTableReportsAll(vs: seq<Visitor>, maxTracked: nat, tr: seq<State>, n: nat)
    requires ValidVisitors(vs) && |vs| <= maxTracked && Run(vs, maxTracked, tr) && n < |tr|
    ensures var s, t := tr[n], tr[n].tables;
            && t.totalRides == Sum(t.ridesByTicket) == EntryRides(Reported(t))
            && t.totalTourists == Sum(t.touristsByTicket)
                 == EntryHeads(Reported(t)) + Total(HeadsWaiting, s.visits, None)
  {
    RunInv(vs, maxTracked, tr, n);
    ReportAgreement(vs, maxTracked, tr, n);
    assert tr[n].visits[|tr[n].visits|..] == [];
  }
}
